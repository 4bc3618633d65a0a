/** What Connect's write phase leaves in the working directory. */
module Overlay {
  import opened Common
  import opened Parameters
  import opened Harness
  import opened Controller
  import P = ProviderConfig

  type Extracted = map<P.CredentialValue, Bytes>

  function CredentialFile(c: P.CredentialValue, extracted: Extracted): Files {
    if c in extracted then map[Base(c.filename) := extracted[c]] else map[]
  }

  /** The files credentials become; a later one with the same base name wins. */
  function CredentialFiles(cs: seq<P.CredentialValue>, extracted: Extracted): Files {
    if cs == [] then map[] else CredentialFile(cs[0], extracted) + CredentialFiles(cs[1..], extracted)
  }

  function GitCredentialFile(c: P.CredentialValue, extracted: Extracted): Files {
    if c.filename == GIT_CREDENTIALS then CredentialFile(c, extracted) else map[]
  }

  function GitCredentialFiles(cs: seq<P.CredentialValue>, extracted: Extracted): Files {
    if cs == [] then map[] else GitCredentialFile(cs[0], extracted) + GitCredentialFiles(cs[1..], extracted)
  }

  function Single(name: string, content: Option<string>): Files {
    if content.None? then map[] else map[name := content.value]
  }

  function ModuleFile(p: Parameters<ClusterRef>): Files {
    if p.source == INLINE then map[MainFile(p) := p.tofuModule] else map[]
  }

  function SettingsFiles(pc: P.SpecValue, extracted: Extracted): Files {
    CredentialFiles(CredentialsOf(pc), extracted) + Single(TF_CONFIG, pc.configuration)
    + Single(TF_BACKEND_FILE, pc.backendFile)
  }

  /** Everything the write phase puts into the working directory when it gets to the end. */
  function Written(p: Parameters<ClusterRef>, pc: P.SpecValue, extracted: Extracted): Files {
    InWork(p) + SettingsFiles(pc, extracted)
  }

  lemma AddAssociative(a: Files, b: Files, c: Files)
    ensures a + b + c == a + (b + c)
  {
  }

  lemma AddOne(a: Files, name: string, content: Bytes)
    ensures a + map[name := content] == a[name := content]
    ensures a + map[] == a
  {
  }

  lemma AddTwice(a: Files, b: Files)
    ensures a + b + b == a + b
  {
  }

  lemma {:induction false} CredentialsWritten(files: Files, cs: seq<P.CredentialValue>, io: ConnectIn)
    requires WriteCredentials(files, cs, io).1.None?
    ensures WriteCredentials(files, cs, io).0 == files + CredentialFiles(cs, io.extracted)
    decreases |cs|
  {
    hide Base, Writable;
    if cs != [] {
      var one, rest := CredentialFile(cs[0], io.extracted), CredentialFiles(cs[1..], io.extracted);
      var next := files[Base(cs[0].filename) := io.extracted[cs[0]]];
      assert next == files + one;
      CredentialsWritten(next, cs[1..], io);
      AddAssociative(files, one, rest);
    }
  }

  lemma GitCredentialStep(tmp: Files, cs: seq<P.CredentialValue>, io: ConnectIn)
    requires cs != [] && WriteGitCredentials(tmp, cs, io).1.None?
    ensures WriteGitCredentials(tmp, cs, io)
         == WriteGitCredentials(tmp + GitCredentialFile(cs[0], io.extracted), cs[1..], io)
  {
    hide Base, Writable;
    if cs[0].filename == GIT_CREDENTIALS {
      var name := Base(cs[0].filename);
      assert tmp[name := io.extracted[cs[0]]] == tmp + GitCredentialFile(cs[0], io.extracted);
    } else {
      assert tmp == tmp + GitCredentialFile(cs[0], io.extracted);
    }
  }

  lemma {:induction false} GitCredentialsWritten(tmp: Files, cs: seq<P.CredentialValue>, io: ConnectIn)
    requires WriteGitCredentials(tmp, cs, io).1.None?
    ensures WriteGitCredentials(tmp, cs, io).0 == tmp + GitCredentialFiles(cs, io.extracted)
    decreases |cs|
  {
    if cs != [] {
      var one := GitCredentialFile(cs[0], io.extracted);
      GitCredentialStep(tmp, cs, io);
      GitCredentialsWritten(tmp + one, cs[1..], io);
      AddAssociative(tmp, one, GitCredentialFiles(cs[1..], io.extracted));
    }
  }

  lemma SettingsWritten(files: Files, pc: P.SpecValue, io: ConnectIn)
    requires WriteSettings(files, pc, io).1.None?
    ensures WriteSettings(files, pc, io).0 == files + SettingsFiles(pc, io.extracted)
  {
    hide WriteCredentials, CredentialFiles, Writable;
    CredentialsWritten(files, CredentialsOf(pc), io);
    var a := CredentialFiles(CredentialsOf(pc), io.extracted);
    var b, c := Single(TF_CONFIG, pc.configuration), Single(TF_BACKEND_FILE, pc.backendFile);
    var f2 := WriteIfSet(files + a, TF_CONFIG, pc.configuration, io, ERR_WRITE_CONFIG).0;
    assert f2 == files + a + b;
    assert WriteSettings(files, pc, io).0 == f2 + c;
    AddAssociative(files, a, b);
    AddAssociative(files, a + b, c);
  }

  function InRoot(p: Parameters<ClusterRef>): Files {
    if p.entrypoint == "" then map[] else ModuleFile(p)
  }

  function InWork(p: Parameters<ClusterRef>): Files {
    if p.entrypoint == "" then ModuleFile(p) else map[]
  }

  lemma ModulePlaced(w: World, p: Parameters<ClusterRef>, io: ConnectIn)
    requires p.source != REMOTE && PlaceModule(w, p, io).1.None?
    ensures PlaceModule(w, p, io).0 == w.(root := w.root + InRoot(p), work := w.work + InWork(p))
  {
    hide MainFile, Writable;
    AddOne(w.root, MainFile(p), p.tofuModule);
    AddOne(w.work, MainFile(p), p.tofuModule);
  }

  /** A write phase that succeeds adds exactly these files, and touches nothing else. */
  lemma WritePhaseAdds(w: World, p: Parameters<ClusterRef>, pc: P.SpecValue, io: ConnectIn)
    requires p.source != REMOTE && WritePhase(w, p, pc, io).1.None?
    ensures WritePhase(w, p, pc, io).0 == w.(
      work := w.work + Written(p, pc, io.extracted),
      root := w.root + InRoot(p),
      tmp := w.tmp + GitCredentialFiles(CredentialsOf(pc), io.extracted))
  {
    GitCredentialsWritten(w.tmp, CredentialsOf(pc), io);
    var w0 := w.(tmp := w.tmp + GitCredentialFiles(CredentialsOf(pc), io.extracted));
    ModulePlaced(w0, p, io);
    SettingsWritten(w.work + InWork(p), pc, io);
    AddAssociative(w.work, InWork(p), SettingsFiles(pc, io.extracted));
  }

  lemma PlaceModuleFrame(w: World, p: Parameters<ClusterRef>, io: ConnectIn)
    ensures var v := PlaceModule(w, p, io).0; v == w.(root := v.root, work := v.work)
  {
  }

  /** Backend, selection and the like are not touched by writing files, failed or not. */
  lemma WritePhaseFrame(w: World, p: Parameters<ClusterRef>, pc: P.SpecValue, io: ConnectIn)
    ensures var v := WritePhase(w, p, pc, io).0;
      && v.store == w.store && v.selected == w.selected && v.installed == w.installed && v.history == w.history
  {
    PlaceModuleFrame(w.(tmp := WriteGitCredentials(w.tmp, CredentialsOf(pc), io).0), p, io);
  }

  // ---- Names --------------------------------------------------------------------------

  predicate Slashes(s: string) {
    forall i :: 0 <= i < |s| ==> s[i] == '/'
  }

  lemma {:induction false} TrimmedExactly(s: string, slashes: string)
    requires Slashes(slashes) && (s == "" || s[|s| - 1] != '/')
    ensures TrimSlashes(s + slashes) == s
    decreases |slashes|
  {
    if slashes == "" {
      assert s + slashes == s;
    } else {
      var shorter := slashes[..|slashes| - 1];
      assert (s + slashes)[..|s + slashes| - 1] == s + shorter;
      TrimmedExactly(s, shorter);
    }
  }

  lemma {:induction false} LastPart(dir: string, name: string)
    requires '/' !in name
    ensures AfterLastSlash(name) == name
    ensures AfterLastSlash(dir + "/" + name) == name
  {
    var path := dir + "/" + name;
    assert path[|dir|] == '/';
    if dir == "" {
      assert path[1..] == name;
    } else {
      assert path[1..] == dir[1..] + "/" + name;
      LastPart(dir[1..], name);
    }
  }

  /** The base of a path: its last part, whatever is before that and however many slashes are after. */
  lemma BaseExactly(dir: string, name: string, slashes: string)
    requires '/' !in name && Slashes(slashes)
    ensures name != "" ==> Base(name + slashes) == name && Base(dir + "/" + name + slashes) == name
    ensures Base("") == "." && (slashes != "" ==> Base(slashes) == "/")
  {
    if name != "" {
      TrimmedExactly(name, slashes);
      TrimmedExactly(dir + "/" + name, slashes);
      assert (dir + "/" + name)[|dir + "/" + name| - 1] == name[|name| - 1];
      LastPart(dir, name);
    }
    if slashes != "" {
      TrimmedExactly("", slashes);
      assert "" + slashes == slashes;
    }
  }

  /** An inline module's file is JSON for tofu exactly when the module is declared so. */
  lemma ModuleFormat(p: Parameters<ClusterRef>)
    ensures HasPrefix(MainFile(p), "main.tf")
    ensures HasSuffix(MainFile(p), ".json") <==> p.inlineFormat == "JSON"
  {
    assert TF_MAIN[2..] == "in.tf" && TF_MAIN[2] == 'i' && ".json"[0] == '.';
    assert TF_MAIN_JSON[..7] == "main.tf" && TF_MAIN_JSON[7..] == ".json" && TF_MAIN[..7] == "main.tf";
  }

  // ---- When writing succeeds ----------------------------------------------------------

  lemma {:induction false} CredentialsSucceed(files: Files, cs: seq<P.CredentialValue>, io: ConnectIn)
    ensures WriteCredentials(files, cs, io).1.None? <==>
      forall i :: 0 <= i < |cs| ==> cs[i] in io.extracted && Writable(Base(cs[i].filename), io.denied)
    decreases |cs|
  {
    hide Base, Writable;
    if cs != [] && cs[0] in io.extracted && Writable(Base(cs[0].filename), io.denied) {
      CredentialsSucceed(files[Base(cs[0].filename) := io.extracted[cs[0]]], cs[1..], io);
      assert forall i :: 0 < i < |cs| ==> cs[i] == cs[1..][i - 1];
    }
  }

  predicate GitCredentialReady(c: P.CredentialValue, io: ConnectIn) {
    c.filename == GIT_CREDENTIALS ==> c in io.extracted && io.mkdirGitOk && Writable(GIT_CREDENTIALS, io.deniedTmp)
  }

  lemma GitName()
    ensures Base(GIT_CREDENTIALS) == GIT_CREDENTIALS
  {
    BaseExactly("", GIT_CREDENTIALS, "");
    assert GIT_CREDENTIALS + "" == GIT_CREDENTIALS;
  }

  lemma {:induction false} GitCredentialsSucceed(tmp: Files, cs: seq<P.CredentialValue>, io: ConnectIn)
    ensures WriteGitCredentials(tmp, cs, io).1.None? <==>
      forall i :: 0 <= i < |cs| ==> GitCredentialReady(cs[i], io)
    decreases |cs|
  {
    hide Base, Writable;
    if cs != [] && GitCredentialReady(cs[0], io) {
      GitName();
      assert forall i :: 0 < i < |cs| ==> cs[i] == cs[1..][i - 1];
      if cs[0].filename == GIT_CREDENTIALS {
        GitCredentialsSucceed(tmp[Base(cs[0].filename) := io.extracted[cs[0]]], cs[1..], io);
      } else {
        GitCredentialsSucceed(tmp, cs[1..], io);
      }
    } else if cs != [] {
      GitName();
    }
  }

  /** Every credential can be read, every file written and a remote module fetched. */
  predicate CanWrite(p: Parameters<ClusterRef>, pc: P.SpecValue, io: ConnectIn) {
    && (forall i :: 0 <= i < |CredentialsOf(pc)| ==>
          && GitCredentialReady(CredentialsOf(pc)[i], io)
          && CredentialsOf(pc)[i] in io.extracted && Writable(Base(CredentialsOf(pc)[i].filename), io.denied))
    && (p.source == REMOTE ==> io.fetched.Some?)
    && (p.source == INLINE ==> Writable(MainFile(p), io.deniedRoot))
    && (pc.configuration.Some? ==> Writable(TF_CONFIG, io.denied))
    && (pc.backendFile.Some? ==> Writable(TF_BACKEND_FILE, io.denied))
  }

  /** The write phase fails only if one of its writes or reads does. */
  lemma WritePhaseSucceeds(w: World, p: Parameters<ClusterRef>, pc: P.SpecValue, io: ConnectIn)
    ensures WritePhase(w, p, pc, io).1.None? <==> CanWrite(p, pc, io)
  {
    hide WriteCredentials, WriteGitCredentials, Writable, Base, MainFile, GitCredentialReady;
    var (tmp, e0) := WriteGitCredentials(w.tmp, CredentialsOf(pc), io);
    GitCredentialsSucceed(w.tmp, CredentialsOf(pc), io);
    var (w1, e1) := PlaceModule(w.(tmp := tmp), p, io);
    assert REMOTE[0] != INLINE[0];
    CredentialsSucceed(w1.work, CredentialsOf(pc), io);
  }

  predicate CredentialReady(c: P.CredentialValue, io: ConnectIn) {
    c in io.extracted && Writable(Base(c.filename), io.denied)
  }

  /** The error is that of the first credential that cannot be read or written. */
  lemma {:induction false} CredentialsFail(files: Files, cs: seq<P.CredentialValue>, io: ConnectIn)
    requires WriteCredentials(files, cs, io).1.Some?
    ensures exists k ::
      && 0 <= k < |cs| && !CredentialReady(cs[k], io)
      && (forall i :: 0 <= i < k ==> CredentialReady(cs[i], io))
      && Context(WriteCredentials(files, cs, io).1.value)
         == if cs[k] in io.extracted then ERR_WRITE_CREDS else ERR_GET_CREDS
    decreases |cs|
  {
    hide Base, Writable;
    if CredentialReady(cs[0], io) {
      var next := files[Base(cs[0].filename) := io.extracted[cs[0]]];
      CredentialsFail(next, cs[1..], io);
      var k :| 0 <= k < |cs[1..]| && !CredentialReady(cs[1..][k], io)
        && (forall i :: 0 <= i < k ==> CredentialReady(cs[1..][i], io))
        && Context(WriteCredentials(next, cs[1..], io).1.value)
           == if cs[1..][k] in io.extracted then ERR_WRITE_CREDS else ERR_GET_CREDS;
      assert cs[k + 1] == cs[1..][k];
      assert forall i :: 0 < i < k + 1 ==> cs[i] == cs[1..][i - 1];
    } else {
      assert !CredentialReady(cs[0], io);
    }
  }

  lemma {:induction false} GitCredentialsFail(tmp: Files, cs: seq<P.CredentialValue>, io: ConnectIn)
    requires WriteGitCredentials(tmp, cs, io).1.Some?
    ensures exists k ::
      && 0 <= k < |cs| && !GitCredentialReady(cs[k], io)
      && (forall i :: 0 <= i < k ==> GitCredentialReady(cs[i], io))
      && Context(WriteGitCredentials(tmp, cs, io).1.value)
         == if cs[k] in io.extracted then ERR_WRITE_GIT_CREDS else ERR_GET_CREDS
    decreases |cs|
  {
    hide Base, Writable;
    GitName();
    if GitCredentialReady(cs[0], io) {
      var next := if cs[0].filename == GIT_CREDENTIALS then tmp[Base(cs[0].filename) := io.extracted[cs[0]]] else tmp;
      GitCredentialsFail(next, cs[1..], io);
      var k :| 0 <= k < |cs[1..]| && !GitCredentialReady(cs[1..][k], io)
        && (forall i :: 0 <= i < k ==> GitCredentialReady(cs[1..][i], io))
        && Context(WriteGitCredentials(next, cs[1..], io).1.value)
           == if cs[1..][k] in io.extracted then ERR_WRITE_GIT_CREDS else ERR_GET_CREDS;
      assert cs[k + 1] == cs[1..][k];
      assert forall i :: 0 < i < k + 1 ==> cs[i] == cs[1..][i - 1];
    } else {
      assert !GitCredentialReady(cs[0], io);
    }
  }

  /** A write phase that fails names the first thing it could not do: git credentials come first, settings last. */
  lemma WritePhaseFails(w: World, p: Parameters<ClusterRef>, pc: P.SpecValue, io: ConnectIn)
    requires WritePhase(w, p, pc, io).1.Some?
    ensures var cs, context := CredentialsOf(pc), Context(WritePhase(w, p, pc, io).1.value);
      if exists i :: 0 <= i < |cs| && !GitCredentialReady(cs[i], io)
      then context in {ERR_GET_CREDS, ERR_WRITE_GIT_CREDS}
      else if p.source == REMOTE && io.fetched.None? then context == ERR_REMOTE_MODULE
      else if p.source == INLINE && !Writable(MainFile(p), io.deniedRoot) then context == ERR_WRITE_MAIN + MainFile(p)
      else if exists i :: 0 <= i < |cs| && !CredentialReady(cs[i], io) then context in {ERR_GET_CREDS, ERR_WRITE_CREDS}
      else if pc.configuration.Some? && !Writable(TF_CONFIG, io.denied) then context == ERR_WRITE_CONFIG
      else context == ERR_WRITE_BACKEND
  {
    hide WriteCredentials, WriteGitCredentials, Writable, Base, MainFile, GitCredentialReady;
    var cs := CredentialsOf(pc);
    var (tmp, e0) := WriteGitCredentials(w.tmp, cs, io);
    GitCredentialsSucceed(w.tmp, cs, io);
    if e0.Some? {
      GitCredentialsFail(w.tmp, cs, io);
    } else {
      var w1 := PlaceModule(w.(tmp := tmp), p, io).0;
      assert REMOTE[0] != INLINE[0];
      CredentialsSucceed(w1.work, cs, io);
      if WriteCredentials(w1.work, cs, io).1.Some? {
        CredentialsFail(w1.work, cs, io);
      }
    }
  }

  lemma {:induction false} CredentialsWritable(files: Files, cs: seq<P.CredentialValue>, io: ConnectIn, name: string)
    requires WriteCredentials(files, cs, io).1.None? && name in CredentialFiles(cs, io.extracted)
    ensures name !in io.denied && name !in {".", "..", "/"}
    decreases |cs|
  {
    hide Base;
    if name !in CredentialFile(cs[0], io.extracted) {
      CredentialsWritable(files[Base(cs[0].filename) := io.extracted[cs[0]]], cs[1..], io, name);
    }
  }

  /** Nothing is put where it cannot be: a name that is refused, or that is a directory, makes the phase fail. */
  lemma OnlyWritable(w: World, p: Parameters<ClusterRef>, pc: P.SpecValue, io: ConnectIn, name: string)
    requires WritePhase(w, p, pc, io).1.None? && name in SettingsFiles(pc, io.extracted)
    ensures name !in io.denied && name !in {".", "..", "/"}
  {
    hide WriteCredentials, CredentialFiles, WriteGitCredentials;
    var w1 := PlaceModule(w.(tmp := WriteGitCredentials(w.tmp, CredentialsOf(pc), io).0), p, io).0;
    if name in CredentialFiles(CredentialsOf(pc), io.extracted) {
      CredentialsWritable(w1.work, CredentialsOf(pc), io, name);
    }
  }

  /** With a remote module, what was fetched takes the directory's place, and the settings go on top. */
  lemma RemoteAdds(w: World, p: Parameters<ClusterRef>, pc: P.SpecValue, io: ConnectIn)
    requires p.source == REMOTE && WritePhase(w, p, pc, io).1.None?
    ensures io.fetched.Some?
    ensures WritePhase(w, p, pc, io).0 == w.(
      work := io.fetched.value.1 + SettingsFiles(pc, io.extracted),
      root := io.fetched.value.0,
      tmp := w.tmp + GitCredentialFiles(CredentialsOf(pc), io.extracted))
  {
    hide WriteCredentials, WriteGitCredentials, WriteSettings, SettingsFiles;
    GitCredentialsWritten(w.tmp, CredentialsOf(pc), io);
    if io.fetched.Some? {
      SettingsWritten(io.fetched.value.1, pc, io);
    }
  }

  // ---- Writes that were cut short -----------------------------------------------------

  lemma Overwritten(files: Files, part: Files, all: Files)
    requires part.Keys <= all.Keys
    ensures files + part + all == files + all
  {
  }

  lemma Widened(after: Files, files: Files, all: Files, more: Files)
    requires after + all == files + all
    ensures after + (all + more) == files + (all + more)
    ensures after + (more + all) == files + (more + all)
  {
    AddAssociative(after, all, more);
    AddAssociative(files, all, more);
    forall name
      ensures name in after + (more + all) <==> name in files + (more + all)
      ensures name in after + (more + all) ==> (after + (more + all))[name] == (files + (more + all))[name]
    {
      assert name in after + all <==> name in files + all;
      assert name in after && name !in all ==> (after + all)[name] == (files + all)[name];
    }
  }

  /** Credentials go only to files that a loop not cut short would write as well. */
  lemma {:induction false} CredentialsWithin(files: Files, cs: seq<P.CredentialValue>, io: ConnectIn)
    ensures WriteCredentials(files, cs, io).0 + CredentialFiles(cs, io.extracted)
         == files + CredentialFiles(cs, io.extracted)
    decreases |cs|
  {
    hide Base, Writable;
    if cs != [] && cs[0] in io.extracted && Writable(Base(cs[0].filename), io.denied) {
      var one, rest := CredentialFile(cs[0], io.extracted), CredentialFiles(cs[1..], io.extracted);
      var next := files[Base(cs[0].filename) := io.extracted[cs[0]]];
      var after := WriteCredentials(next, cs[1..], io).0;
      CredentialsWithin(next, cs[1..], io);
      Widened(after, next, rest, one);
      assert next == files + one;
      Overwritten(files, one, one + rest);
    }
  }

  lemma SettingsWithin(files: Files, pc: P.SpecValue, io: ConnectIn)
    ensures WriteSettings(files, pc, io).0 + SettingsFiles(pc, io.extracted) == files + SettingsFiles(pc, io.extracted)
  {
    hide WriteCredentials, CredentialFiles, Writable;
    var all := SettingsFiles(pc, io.extracted);
    var a := CredentialFiles(CredentialsOf(pc), io.extracted);
    var b, c := Single(TF_CONFIG, pc.configuration), Single(TF_BACKEND_FILE, pc.backendFile);
    var (f1, e1) := WriteCredentials(files, CredentialsOf(pc), io);
    CredentialsWithin(files, CredentialsOf(pc), io);
    Widened(f1, files, a, b);
    Widened(f1, files, a + b, c);
    var f2 := WriteIfSet(f1, TF_CONFIG, pc.configuration, io, ERR_WRITE_CONFIG).0;
    assert f2 == f1 || f2 == f1 + b;
    Overwritten(f1, b, all);
    var f3 := WriteIfSet(f2, TF_BACKEND_FILE, pc.backendFile, io, ERR_WRITE_BACKEND).0;
    assert f3 == f2 || f3 == f2 + c;
    Overwritten(f2, c, all);
  }

  /** A write phase, failed or not, changes the working directory only where a complete one would. */
  lemma WritePhaseWithin(w: World, p: Parameters<ClusterRef>, pc: P.SpecValue, io: ConnectIn)
    requires p.source != REMOTE
    ensures WritePhase(w, p, pc, io).0.work + Written(p, pc, io.extracted) == w.work + Written(p, pc, io.extracted)
  {
    hide WriteCredentials, WriteGitCredentials, WriteSettings, SettingsFiles, MainFile, Writable;
    var (tmp, e0) := WriteGitCredentials(w.tmp, CredentialsOf(pc), io);
    var (w1, e1) := PlaceModule(w.(tmp := tmp), p, io);
    if e0.None? && e1.None? {
      var all := SettingsFiles(pc, io.extracted);
      ModulePlaced(w.(tmp := tmp), p, io);
      SettingsWithin(w1.work, pc, io);
      Widened(WriteSettings(w1.work, pc, io).0, w1.work, all, InWork(p));
      Overwritten(w.work, InWork(p), InWork(p) + all);
    }
  }

  // ---- Last writer --------------------------------------------------------------------

  function Read(files: Files, name: string): Option<Bytes> {
    if name in files then Some(files[name]) else None
  }

  function Or(first: Option<Bytes>, second: Option<Bytes>): Option<Bytes> {
    if first.Some? then first else second
  }

  lemma ReadAdded(a: Files, b: Files, name: string)
    ensures Read(a + b, name) == Or(Read(b, name), Read(a, name))
  {
  }

  /** The content of the last credential with this base name. */
  function LastCredential(cs: seq<P.CredentialValue>, extracted: Extracted, name: string): Option<Bytes> {
    if cs == [] then None
    else Or(Read(CredentialFile(cs[|cs| - 1], extracted), name), LastCredential(cs[..|cs| - 1], extracted, name))
  }

  lemma {:induction false} CredentialFilesSnoc(cs: seq<P.CredentialValue>, c: P.CredentialValue, extracted: Extracted)
    ensures CredentialFiles(cs + [c], extracted) == CredentialFiles(cs, extracted) + CredentialFile(c, extracted)
  {
    if cs == [] {
      assert (cs + [c])[1..] == [];
      assert CredentialFile(c, extracted) + map[] == map[] + CredentialFile(c, extracted);
    } else {
      assert (cs + [c])[1..] == cs[1..] + [c];
      CredentialFilesSnoc(cs[1..], c, extracted);
      AddAssociative(CredentialFile(cs[0], extracted), CredentialFiles(cs[1..], extracted),
                     CredentialFile(c, extracted));
    }
  }

  lemma {:induction false} CredentialFilesRead(cs: seq<P.CredentialValue>, extracted: Extracted, name: string)
    ensures Read(CredentialFiles(cs, extracted), name) == LastCredential(cs, extracted, name)
  {
    if cs != [] {
      var before, c := cs[..|cs| - 1], cs[|cs| - 1];
      assert cs == before + [c];
      CredentialFilesSnoc(before, c, extracted);
      CredentialFilesRead(before, extracted, name);
      ReadAdded(CredentialFiles(before, extracted), CredentialFile(c, extracted), name);
    }
  }

  /** The content of the last git credential. */
  function LastGitCredential(cs: seq<P.CredentialValue>, extracted: Extracted): Option<Bytes> {
    if cs == [] then None
    else
      var c := cs[|cs| - 1];
      Or(if c.filename == GIT_CREDENTIALS && c in extracted then Some(extracted[c]) else None,
         LastGitCredential(cs[..|cs| - 1], extracted))
  }

  lemma {:induction false} GitCredentialFilesSnoc(cs: seq<P.CredentialValue>, c: P.CredentialValue,
                                                  extracted: Extracted)
    ensures GitCredentialFiles(cs + [c], extracted)
         == GitCredentialFiles(cs, extracted) + GitCredentialFile(c, extracted)
  {
    if cs == [] {
      assert (cs + [c])[1..] == [];
      assert GitCredentialFile(c, extracted) + map[] == map[] + GitCredentialFile(c, extracted);
    } else {
      assert (cs + [c])[1..] == cs[1..] + [c];
      GitCredentialFilesSnoc(cs[1..], c, extracted);
      AddAssociative(GitCredentialFile(cs[0], extracted), GitCredentialFiles(cs[1..], extracted),
                     GitCredentialFile(c, extracted));
    }
  }

  lemma {:induction false} GitCredentialFilesRead(cs: seq<P.CredentialValue>, extracted: Extracted, name: string)
    ensures Read(GitCredentialFiles(cs, extracted), name)
         == if name == GIT_CREDENTIALS then LastGitCredential(cs, extracted) else None
  {
    hide Base;
    if cs != [] {
      var before, c := cs[..|cs| - 1], cs[|cs| - 1];
      assert cs == before + [c];
      GitCredentialFilesSnoc(before, c, extracted);
      GitCredentialFilesRead(before, extracted, name);
      ReadAdded(GitCredentialFiles(before, extracted), GitCredentialFile(c, extracted), name);
      GitName();
    }
  }

  /**
  Which writer a file's content comes from, for an inline module. In the directory of the
  entrypoint: the backend file before the configuration, before the last credential with that
  base name, before the module if there is no entrypoint, before what was there. Above an
  entrypoint it is the module, and under /tmp the last git credential.
  */
  lemma LastWriterWins(w: World, p: Parameters<ClusterRef>, pc: P.SpecValue, io: ConnectIn, name: string)
    requires p.source == INLINE && WritePhase(w, p, pc, io).1.None?
    ensures Read(WritePhase(w, p, pc, io).0.work, name) ==
      Or(if name == TF_BACKEND_FILE then pc.backendFile else None,
         Or(if name == TF_CONFIG then pc.configuration else None,
            Or(LastCredential(CredentialsOf(pc), io.extracted, name),
               Or(if p.entrypoint == "" && name == MainFile(p) then Some(p.tofuModule) else None, Read(w.work, name)))))
    ensures Read(WritePhase(w, p, pc, io).0.root, name) ==
      Or(if p.entrypoint != "" && name == MainFile(p) then Some(p.tofuModule) else None, Read(w.root, name))
    ensures Read(WritePhase(w, p, pc, io).0.tmp, name) ==
      Or(if name == GIT_CREDENTIALS then LastGitCredential(CredentialsOf(pc), io.extracted) else None,
         Read(w.tmp, name))
  {
    hide WritePhase, CredentialFiles, LastCredential, GitCredentialFiles, LastGitCredential, MainFile;
    WritePhaseAdds(w, p, pc, io);
    var a := CredentialFiles(CredentialsOf(pc), io.extracted);
    var b, c := Single(TF_CONFIG, pc.configuration), Single(TF_BACKEND_FILE, pc.backendFile);
    CredentialFilesRead(CredentialsOf(pc), io.extracted, name);
    GitCredentialFilesRead(CredentialsOf(pc), io.extracted, name);
    ReadAdded(w.tmp, GitCredentialFiles(CredentialsOf(pc), io.extracted), name);
    ReadAdded(w.root, InRoot(p), name);
    ReadAdded(w.work, Written(p, pc, io.extracted), name);
    ReadAdded(InWork(p), SettingsFiles(pc, io.extracted), name);
    ReadAdded(a + b, c, name);
    ReadAdded(a, b, name);
    assert Read(ModuleFile(p), name) == if name == MainFile(p) then Some(p.tofuModule) else None;
    assert Read(b, name) == if name == TF_CONFIG then pc.configuration else None;
    assert Read(c, name) == if name == TF_BACKEND_FILE then pc.backendFile else None;
  }

  // ---- Once more ----------------------------------------------------------------------

  lemma {:induction false} CredentialsOutcome(files: Files, more: Files, cs: seq<P.CredentialValue>, io: ConnectIn)
    ensures WriteCredentials(files, cs, io).1 == WriteCredentials(more, cs, io).1
    decreases |cs|
  {
    if cs != [] && cs[0] in io.extracted {
      var name, data := Base(cs[0].filename), io.extracted[cs[0]];
      CredentialsOutcome(files[name := data], more[name := data], cs[1..], io);
    }
  }

  lemma {:induction false} GitCredentialsOutcome(tmp: Files, more: Files, cs: seq<P.CredentialValue>, io: ConnectIn)
    ensures WriteGitCredentials(tmp, cs, io).1 == WriteGitCredentials(more, cs, io).1
    decreases |cs|
  {
    if cs != [] {
      if cs[0].filename != GIT_CREDENTIALS {
        GitCredentialsOutcome(tmp, more, cs[1..], io);
      } else if cs[0] in io.extracted {
        var name, data := Base(cs[0].filename), io.extracted[cs[0]];
        GitCredentialsOutcome(tmp[name := data], more[name := data], cs[1..], io);
      }
    }
  }

  lemma SettingsOutcome(files: Files, more: Files, pc: P.SpecValue, io: ConnectIn)
    ensures WriteSettings(files, pc, io).1 == WriteSettings(more, pc, io).1
  {
    CredentialsOutcome(files, more, CredentialsOf(pc), io);
  }

  /** How writing ends does not depend on what is in the directories. */
  lemma WriteOutcome(w: World, v: World, p: Parameters<ClusterRef>, pc: P.SpecValue, io: ConnectIn)
    ensures WritePhase(w, p, pc, io).1 == WritePhase(v, p, pc, io).1
  {
    var cs := CredentialsOf(pc);
    GitCredentialsOutcome(w.tmp, v.tmp, cs, io);
    var w1 := PlaceModule(w.(tmp := WriteGitCredentials(w.tmp, cs, io).0), p, io).0;
    var v1 := PlaceModule(v.(tmp := WriteGitCredentials(v.tmp, cs, io).0), p, io).0;
    SettingsOutcome(w1.work, v1.work, pc, io);
  }

  /** Writing the same things once more succeeds again and changes nothing at all. */
  lemma WritePhaseIdempotent(w: World, p: Parameters<ClusterRef>, pc: P.SpecValue, io: ConnectIn)
    requires p.source != REMOTE && WritePhase(w, p, pc, io).1.None?
    ensures WritePhase(WritePhase(w, p, pc, io).0, p, pc, io) == (WritePhase(w, p, pc, io).0, None)
  {
    var v := WritePhase(w, p, pc, io).0;
    WriteOutcome(w, v, p, pc, io);
    WritePhaseAdds(w, p, pc, io);
    WritePhaseAdds(v, p, pc, io);
    AddTwice(w.work, Written(p, pc, io.extracted));
    AddTwice(w.root, InRoot(p));
    AddTwice(w.tmp, GitCredentialFiles(CredentialsOf(pc), io.extracted));
  }
}
