# The OpenTofu provider, verified

The provider reconciles Workspace resources by running the `tofu` binary in a directory per
Workspace. This project models what happens between the reconciler and the binary and proves
properties of it, over every input, every run and every interleaving. `dafny verify
dfyconfig.toml` checks all of it.

| file | what it models |
|---|---|
| `CacheLock.dfy` | the reader/writer lock around the shared plugin cache, with any number of interleaved harness calls |
| `Options.dfy`, `Precedence.dfy` | option closures, generated variable files, and what tofu makes of the arguments |
| `Parameters.dfy`, `Results.dfy`, `ClusterResolve.dfy`, `NamespacedResolve.dfy`, `ControllerSimulation.dfy` | key references in environment and variable files, for both controllers, and their agreement |
| `StateList.dfy`, `Sorting.dfy`, `Outputs.dfy` | parsing `state list`, listing outputs, connection details and status |
| `Harness.dfy` | the harness methods over a backend, a selected workspace and a directory |
| `Controller.dfy`, `Overlay.dfy` | Connect, Observe, Create, Update, Delete, and what Connect's writes leave behind |
| `LifeCycle.dfy` | runs of the reconciler: safety and convergence of deletion |
| `Outcomes.dfy` | when each operation succeeds, what it then has done, and that a living resource converges |
| `InitSkip.dfy`, `Quiescence.dfy` | the checksum that lets Connect skip init |
| `WorkDir.dfy` | the garbage collectors of working directories |
| `ProviderConfig.dfy` | resolution of the provider config |

Code that works step by step is a method, on a class where the source updates fields, and is
proved equal to a function on values (`Tofu.Apply` against `RunApply`, `Connect` against
`ConnectTo`, and so on). The theorems are lemmas about those functions.

## How the outside enters

- **The binary, the backend and the file system** are a `World`: a map from workspace name to
  resources and outputs, the selected workspace, the directories' files, the installed plugins,
  and a history of the commands that acted on a workspace. Whether a command succeeds, and what
  the provider does not decide about its effect (what apply leaves in the workspace, which files
  plan or init touch), comes from a reply, and the theorems hold for all replies.
- **A failed apply or destroy** may leave the workspace in any state.
- **`tofu workspace select`** succeeds only for an existing workspace and `new` only for a missing
  one; both may also fail for no reason. `workspace delete` is not assumed to refuse a workspace
  that still has resources: that none with resources is removed is proved of the controller.
- **The checksum, init and JSON text** are functions in `Externals`. Where a theorem needs the
  checksum to be injective, or init to be idempotent, it says so in a `requires`. What init
  installs is kept apart from the files that the checksum covers.
- **The reconciler** connects and observes in every round, deletes only a deleted resource that
  was observed to exist, creates or updates a living one that does not exist or is not up to
  date, and keeps the status. The external name is the same in all rounds of a run.
- **Kubernetes objects** are a read-only store of ConfigMaps and Secrets, different from round to
  round unless a theorem says otherwise.
- **`GetNamespace`, tracking and the type of a provider config object** are inputs of resolution.

## What turned out to matter

- *Vars and files.* The comment at `apis/cluster/v1beta1/workspace_types.go:128-129` says that
  explicitly declared vars take precedence over variable files. The code emits them first, and the
  last argument wins, so they yield (`Precedence.ExplicitVarsYieldToFiles`). The model follows the
  code. A `-var` whose key contains `=` is read back under another key
  (`Precedence.AsReadExact`); the theorems hold for such keys as well.
- *The default workspace.* Removing a Workspace's tofu workspace selects `default`, and the
  outputs that Observe then reads are those of `default`. If that has any, the next destroy runs
  there. `LifeCycle.RunSafe` shows every run safe that starts with a `default` without outputs;
  `LifeCycle.SafeExactly` assumes nothing of `default` and says exactly which runs are.
- *The checksum does not see arguments.* `InitArgs` and the environment can change without init
  running again (`InitSkip.ChangedArgsAreMissed`). `InitSkip.GuardExact` says exactly when
  skipping makes no difference.
- *Credential names.* A credential file named like a variable file in use, with different content,
  is overwritten by every plan and rewritten by every Connect, so that every idle round runs init.
  Apart from that none does: `Quiescence.QuiescentExactly` is the exact condition over whole runs. A
  deleted resource's plan that could not write its variable files is forgiven, so there the theorem
  asks that the first round's can be written. A deleted resource's observation that fails leaves
  its own workspace selected instead of `default`, which the checksum may see, so such a round is
  not among those that leave a resource at rest.
- *Two collectors, one directory.* Both kinds of collector run on the same parent, and each lists
  only its own kind. `WorkDir.OtherKindRemovesLiveDirectory` says when a live directory survives.
- *Nested read sections.* `DeleteCurrentWorkspace` calls `Workspace` before it takes the read lock.
  Taking it first could deadlock with an announced init (`CacheLock.NestedReadSectionsDeadlock`).

## Model

| member | source | states |
|---|---|---|
| CacheLock.HarnessDisciplined | internal/opentofu/opentofu.go:174-310 | on every path of every harness method, cached or not: the lock is never taken while held, always given back, and around a command that touches the cache held in the mode that command needs |
| CacheLock.NextKeepsInv | internal/opentofu/opentofu.go:167-172 | every step of any one call, in any interleaving, keeps the lock's counters equal to the calls inside, parked or announced |
| CacheLock.RunKeepsInv | internal/opentofu/opentofu.go:167-199 | the same over every run in which calls of any kind keep arriving |
| CacheLock.InitRunsAlone | internal/opentofu/opentofu.go:167-199 | in every reachable state, while a cached init command runs, no other cached call runs an init, apply, destroy, output, state list, workspace new or workspace delete command |
| CacheLock.ReaderCountExact | internal/opentofu/opentofu.go:167-172 | the reader count is the number of calls inside read sections; at most one call is inside a write section, and then the reader count is zero |
| CacheLock.NoDeadlock | internal/opentofu/opentofu.go:240-310 | as long as some call has not returned, some call can move, even when a pending writer blocks new readers |
| CacheLock.StuckMeansFree | internal/opentofu/opentofu.go:240-310 | a reachable state in which nothing can move has every call returned and the lock free |
| CacheLock.NextReducesWork | internal/opentofu/opentofu.go:174-310 | every step, including one that lets all parked readers in, lowers the total number of steps left |
| CacheLock.RunsEnd | internal/opentofu/opentofu.go:174-310 | once no new calls arrive, a run is at most as long as the work there was at its start |
| CacheLock.PendingWriterNotOvertaken | internal/opentofu/opentofu.go:192-195 | while an init is announced and waiting, nobody enters a read section |
| CacheLock.ParkedReaderGoesNext | internal/opentofu/opentofu.go:261-264 | a parked reader is let in by the very step in which the writer leaves, and no earlier |
| CacheLock.NestedReadSectionsDeadlock | internal/opentofu/opentofu.go:287-301 | a run of three steps after which a call with nested read sections and an init are both stuck, which is why the nested Workspace call comes first |
| CacheLock.CallRunsExactly | internal/opentofu/opentofu.go:174-310 | cached or not, the paths through each method's program run exactly the commands that its method may run: one of its own kind, select and only on failure new, or show, then a switch to default, then delete |
| CacheLock.CallsRunTheirCommands | internal/opentofu/opentofu.go:174-321 | in every reachable state of any interleaving, what a call has run so far is the beginning of what its method may run, the command it executes comes next, and once it has returned that was all |
| CacheLock.DeleteOnlyAfterSwitch | internal/opentofu/opentofu.go:287-303 | in no interleaving is a workspace deleted but right after the same call's successful select or new |
| StateList.ParseInvertsPrint | internal/opentofu/opentofu.go:473-479 | printing newline-free names one per line and parsing returns the names |
| StateList.PrintInvertsParse | internal/opentofu/opentofu.go:478-479 | for every output: printing what was parsed, followed by the piece that parsing drops, is the output |
| StateList.PiecesAreLines | internal/opentofu/opentofu.go:478 | no piece holds a newline |
| StateList.ParseLength | internal/opentofu/opentofu.go:478-479 | as many names as newlines; none exactly when the output has no newline, and the last piece to drop always exists |
| StateList.EmptyOnlyForEmptyState | internal/opentofu/opentofu.go:461-480 | whatever the names contain, nothing is listed only if the state is empty |
| Options.AtoiInvertsItoa | internal/opentofu/opentofu.go:523 | reading a printed number gives the number back, so printing is injective |
| Options.FileNamesDistinct | internal/opentofu/opentofu.go:523-526 | two generated names are equal exactly when number and JSON-ness are |
| Options.FormatFromName | internal/opentofu/opentofu.go:522-526 | the suffix of a generated name tells JSON exactly for JSON files |
| Options.Invocation.Use | internal/opentofu/opentofu.go:495-530 | what each kind of option appends to arguments and variable files |
| Options.Invocation.UseAll | internal/opentofu/opentofu.go:536-539 | running the closures one by one on the same fields gives the arguments and files of the list |
| Options.ArgumentNamesItsFile | internal/opentofu/opentofu.go:519-530 | for every option list and every place in it: the argument appended for a variable file names the file that holds its bytes, in the right format |
| Options.VarFileNumbered | internal/opentofu/opentofu.go:523-528 | the i-th file carries the number i |
| Options.VarFileNamesDistinct | internal/opentofu/opentofu.go:523-528 | the generated names are pairwise distinct for every mix of options and formats |
| Options.WriteAllFrame | internal/opentofu/opentofu.go:541-545 | the write loop, ended or cut short, touches no file whose name it was not given |
| Options.WriteAllRead | internal/opentofu/opentofu.go:541-545 | with distinct names, after the loop every named file holds exactly the bytes supplied for it |
| Options.WriteAllHolds | internal/opentofu/opentofu.go:541-545 | so it does for the files of every option list |
| Options.WriteAllStable | internal/opentofu/opentofu.go:541-545 | writing again what is there changes nothing, even when cut short |
| Harness.Tofu.Workspace | internal/opentofu/opentofu.go:240-268 | the workspace is selected if it can be, else made; a failure changes nothing |
| Harness.Tofu.DeleteCurrentWorkspace | internal/opentofu/opentofu.go:271-310 | the default workspace is kept; another is removed after switching to default; a late failure leaves default selected |
| Harness.Tofu.WriteVarFiles | internal/opentofu/opentofu.go:541-545 | the files in order up to the first that cannot be written |
| Harness.Tofu.Diff | internal/opentofu/opentofu.go:535-577 | exit code 2 means a difference whatever the error; otherwise the error decides; the plan ran on the selected workspace with the options' arguments |
| Harness.Tofu.Apply | internal/opentofu/opentofu.go:580-622 | apply changes the selected workspace and no other, after the variable files are written; without them it does not run |
| Harness.Tofu.Destroy | internal/opentofu/opentofu.go:625-667 | the same for destroy |
| Harness.Tofu.Resources | internal/opentofu/opentofu.go:461-480 | what is parsed from the printed state of the selected workspace |
| Harness.Tofu.Outputs | internal/opentofu/opentofu.go:401-458 | the one name-ordered listing of the selected workspace's outputs |
| Harness.SameVariables | internal/opentofu/opentofu.go:535-667 | with the same options, plan, apply and destroy find the same variable files and get the same variable arguments, between their fixed prefix and their own extra arguments |
| Sorting.SortSlice | internal/opentofu/opentofu.go:456 | the array ends up in order and with the elements it had |
| Outputs.ListOutputs | internal/opentofu/opentofu.go:431-457 | in whatever order the map is iterated, the result is strictly increasing by name and has each entry, decoded, and nothing else |
| Outputs.ListingUnique | internal/opentofu/opentofu.go:456-457 | a map has only one such listing, so the order of iteration cannot show |
| Outputs.ListingLength | internal/opentofu/opentofu.go:431-457 | one element for each output, none lost or doubled |
| Outputs.SortedCoverIsListing | internal/opentofu/opentofu.go:431-457 | sorting the decoded entries by name, which is not a stable sort, still gives the listing |
| Outputs.ConnectionDetails | internal/controller/cluster/workspace/workspace.go:517-529 | the loop's map is the fold over the outputs whose meaning follows |
| Outputs.StatusOutputs | internal/controller/cluster/workspace/workspace.go:533-545 | likewise for the status |
| Outputs.DetailsMeaning | internal/controller/cluster/workspace/workspace.go:517-529 | an output is in the details exactly when it is a string or can be marshalled, with its own value; nothing else is |
| Outputs.StatusMeaning | internal/controller/cluster/workspace/workspace.go:533-545 | an output is in the status exactly when it is not sensitive and can be marshalled |
| Outputs.MapsOfListing | internal/controller/cluster/workspace/workspace.go:517-545 | both maps depend on the outputs alone, not on how they were listed |
| Outputs.TypeOfExactly | internal/opentofu/opentofu.go:433-446 | an output has a type exactly when the string, or the first element of the array, is that type's name |
| Outputs.LessExactly | internal/opentofu/opentofu.go:456 | names are ordered by their first difference, a beginning before what continues it |
| Outputs.DetailsAndStatus | internal/controller/cluster/workspace/workspace.go:517-545 | for all outputs: the details hold the own text of those whose type is named string, and of the others the JSON if there is one; the status holds the JSON of the non-sensitive ones; with marshallable values these are all the outputs, and all the non-sensitive ones |
| ClusterResolve.EnvListMeaning | internal/controller/cluster/workspace/workspace.go:285-316 | one entry per variable in order, or the error of the first variable that fails |
| ClusterResolve.EnvListReads | internal/controller/cluster/workspace/workspace.go:285-316 | the list exists exactly when every variable has a text of its own, no reference, or a reference whose object has the key (a ConfigMap's before a Secret's), and holds those values under those names |
| ClusterResolve.NotGiven | internal/controller/cluster/workspace/workspace.go:294-310 | a variable without a value says whether its object is missing or only the key in it |
| ClusterResolve.ResolveEnv | internal/controller/cluster/workspace/workspace.go:285-316 | the loop that fills the slice in place returns that list or that error |
| ClusterResolve.ResolveOptions | internal/controller/cluster/workspace/workspace.go:472-515 | the append loops return vars, then files, then the variable map, or the first error |
| ClusterResolve.FilesOfOptions | internal/controller/cluster/workspace/workspace.go:472-515 | the options resolve exactly when every object a variable file names can be read and the variable map can be marshalled; then the files are, in order, one per variable file of a known source, with the bytes under its key (none if the key is missing) and a JSON name exactly for its JSON format, and last the marshalled variable map under a JSON name |
| NamespacedResolve.ResolveEnv | internal/controller/namespaced/workspace/workspace.go:285-316 | the same for references within the resource's namespace |
| NamespacedResolve.ResolveOptions | internal/controller/namespaced/workspace/workspace.go:472-515 | the same for references within the resource's namespace |
| Results.CollectMeaning | internal/controller/cluster/workspace/workspace.go:479-504 | a loop that stops at its first error succeeds exactly when every element does, and else gives the first error |
| ControllerSimulation.EnvSimulates | internal/controller/namespaced/workspace/workspace.go:285-316 | for every list, the namespaced controller's environment or first error is the cluster controller's for references placed in the resource's namespace |
| ControllerSimulation.OptionsSimulate | internal/controller/namespaced/workspace/workspace.go:472-515 | likewise for options |
| Precedence.CutExact | internal/opentofu/opentofu.go:503-507 | a -var argument gives back key and value exactly when the key has no `=` |
| Precedence.AsReadExact | internal/opentofu/opentofu.go:503-507 | what is read from the argument of a variable is the variable exactly when its key has no `=`, and a key that is read never has one |
| Precedence.ArgumentsMeanLayers | internal/opentofu/opentofu.go:495-530 | reading the argument strings and the written files from left to right gives what laying the options over each other gives |
| Precedence.VariablePrecedence | internal/controller/cluster/workspace/workspace.go:472-515 | for all parameters, what tofu reads from the argument strings and files for a key, before a command's own extra arguments, is the value of the variable map, else of the last file that has it, else of the last var read under it |
| Precedence.ExplicitVarsYieldToFiles | internal/controller/cluster/workspace/workspace.go:475-512 | no choice of explicit vars makes a difference to what tofu reads from the argument strings and files for a key exactly when the variable map or a file has the key, or the key has `=` and no -var can name it |
| Controller.PutFiles | internal/controller/cluster/workspace/workspace.go:201-278 | the writes in order, up to the first that fails, which gives the error |
| Controller.Connect | internal/controller/cluster/workspace/workspace.go:176-340 | directories, provider config, writes, environment, the checksum guard, init and workspace selection: the whole new state and the result or error of every path |
| Controller.CheckDiffWith | internal/controller/cluster/workspace/workspace.go:348-365 | a failing plan is an error only for a resource that is not deleted |
| Controller.Observe | internal/controller/cluster/workspace/workspace.go:367-413 | state, status and observation, or error with what was done before it; the status is overwritten before the checksum is taken |
| Controller.Update | internal/controller/cluster/workspace/workspace.go:421-450 | apply, then outputs into status and details; only success resets the checksum |
| Controller.Create | internal/controller/cluster/workspace/workspace.go:415-419 | creating does what updating does |
| Controller.Delete | internal/controller/cluster/workspace/workspace.go:452-465 | destroy in the selected workspace with the resource's options |
| Overlay.WritePhaseAdds | internal/controller/cluster/workspace/workspace.go:201-278 | for a source that is not remote, a write phase that succeeds adds exactly the files listed and touches no other path of the three directories |
| Overlay.WritePhaseWithin | internal/controller/cluster/workspace/workspace.go:242-278 | a write phase that was cut short changes the working directory only in files that a complete one writes |
| Overlay.WritePhaseFrame | internal/controller/cluster/workspace/workspace.go:201-278 | writing, failed or not, leaves backend, selection and plugins alone |
| Overlay.LastWriterWins | internal/controller/cluster/workspace/workspace.go:201-278 | for an inline module each file is the backend file's, else the configuration's, else the last credential's with that base name, else (without an entrypoint) the module's, else what was there; above an entrypoint it is the module's; under /tmp the last git credential's |
| Overlay.RemoteAdds | internal/controller/cluster/workspace/workspace.go:228-278 | for a remote module what was fetched takes the directory's place and only the provider config's files go on top of it |
| Overlay.ModuleFormat | internal/controller/cluster/workspace/workspace.go:242-249 | the module's file has a JSON name exactly when the module is declared JSON |
| Overlay.BaseExactly | internal/controller/cluster/workspace/workspace.go:222-262 | the base name of a path is its last part, whatever directories come before it and slashes after it |
| Overlay.WritePhaseSucceeds | internal/controller/cluster/workspace/workspace.go:201-278 | writing succeeds exactly when every credential can be read, every file can be written and a remote module fetched |
| Overlay.OnlyWritable | internal/controller/cluster/workspace/workspace.go:257-278 | no file is put under a name that is refused or is a directory's |
| Overlay.WritePhaseFails | internal/controller/cluster/workspace/workspace.go:201-278 | a write phase that fails gives the error of the first thing it could not do |
| Overlay.CredentialsFail | internal/controller/cluster/workspace/workspace.go:257-266 | among credentials, the error is that of the first that cannot be read or written, and says which of the two |
| Overlay.WriteOutcome | internal/controller/cluster/workspace/workspace.go:201-278 | whether and how writing fails does not depend on what the directories hold |
| Overlay.WritePhaseIdempotent | internal/controller/cluster/workspace/workspace.go:242-278 | writing the same once more succeeds and changes nothing |
| LifeCycle.ConnectEffect | internal/controller/cluster/workspace/workspace.go:176-340 | connecting at most makes the resource's workspace, and on success has it selected |
| LifeCycle.ObserveSafe | internal/controller/cluster/workspace/workspace.go:367-413 | an observation that leads to an action leaves the resource's workspace selected |
| LifeCycle.ObservationMeans | internal/controller/cluster/workspace/workspace.go:367-413 | of a living resource: up to date exactly when the plan, run once on the selected workspace with the resource's options and plan arguments, saw no difference; existing exactly when the workspace holds resources or outputs; details and status are those of its outputs |
| LifeCycle.UpdateMeans | internal/controller/cluster/workspace/workspace.go:421-450 | a successful update applied once, to the selected workspace only, with the resource's options and apply arguments; details and status are those of the new outputs and the checksum is empty |
| LifeCycle.DestroyMeans | internal/controller/cluster/workspace/workspace.go:452-465 | a successful delete destroyed once, in the selected workspace only, with the resource's options and destroy arguments |
| LifeCycle.DestroyRuns | internal/opentofu/opentofu.go:625-667 | a destroy that runs, successful or not, is in the history with the selected workspace and replaces that workspace's state; one whose options or files fail does nothing to the backend |
| LifeCycle.RoundSafe | internal/controller/cluster/workspace/workspace.go:348-465 | every round, whatever fails in it, keeps the safety invariant |
| LifeCycle.RunSafe | internal/controller/cluster/workspace/workspace.go:348-465 | over every run, if default starts without outputs or is the resource's own workspace: each plan, apply and destroy acts on the workspace of the external name, a workspace is removed only without resources, and default is never removed |
| LifeCycle.MisdirectedExactly | internal/controller/cluster/workspace/workspace.go:381-412 | one observation of a deleted resource, with nothing assumed of default: a destroy is asked for with another workspace selected exactly when the resource's own has no resources left and default has outputs |
| LifeCycle.RoundExactly | internal/controller/cluster/workspace/workspace.go:367-465 | a whole round, with nothing assumed of default: a command acts on another workspace exactly when a destroy runs for a resource whose own workspace had no resources, or did not exist, before the round while default had outputs; then default is destroyed |
| LifeCycle.SafeExactly | internal/controller/cluster/workspace/workspace.go:348-465 | over every run, with nothing assumed of default: every command acts on the workspace of the external name, and only that one is removed and only without resources, exactly when no round is of that kind |
| LifeCycle.PlansIrrelevant | internal/controller/cluster/workspace/workspace.go:354-365 | over every run on a deleted resource, however its plans end, with or without a difference or an error: the same reports are given and the same state is left |
| LifeCycle.ObserveClean | internal/controller/cluster/workspace/workspace.go:367-413 | observing a deleted resource of which nothing is left keeps it so and does not report it as existing |
| LifeCycle.CleanIsGone | internal/controller/cluster/workspace/workspace.go:367-413 | so a round on a clean backend ends with the resource gone unless a command fails |
| LifeCycle.GoneMeansEmpty | internal/controller/cluster/workspace/workspace.go:381-412 | gone means that the workspace does not exist, or is default and is empty |
| LifeCycle.DestroyCleans | internal/controller/cluster/workspace/workspace.go:452-465 | a destroy that succeeds and empties the state leaves nothing of the resource |
| LifeCycle.OneDestroyIsEnough | internal/controller/cluster/workspace/workspace.go:367-465 | in every run on a deleted resource, after one successful Delete every later round reports it gone or fails in Connect or Observe; no second Delete happens |
| LifeCycle.DeletionConverges | internal/controller/cluster/workspace/workspace.go:357-413 | until it is reported gone, all rounds but one were cut short by a failing command, and a failing plan is not one |
| Outcomes.ConnectSucceeds | internal/controller/cluster/workspace/workspace.go:176-340 | Connect succeeds exactly when nothing on its way fails; then the resource's workspace is selected, and was made if it was missing, the harness has the resolved environment and uses the cache unless told not to, and unless the checksum matched init ran on the written files, in that environment, with the resource's arguments last and a backend file only if there is one |
| Outcomes.InitCallMeans | internal/controller/cluster/workspace/workspace.go:331-336 | what init is called with: its own fixed arguments, the backend file exactly if there is one, then the resource's arguments; the resolved environment; the cache unless turned off |
| Outcomes.ConnectFails | internal/controller/cluster/workspace/workspace.go:176-340 | a Connect that fails gives the error of the first thing that went wrong and leaves the backend and the selection alone |
| Outcomes.PlanDecides | internal/opentofu/opentofu.go:562-576 | checking for a difference succeeds exactly when the options resolve and, unless the resource is deleted, the variable files are written and the exit code is 2 or there is no error; it says there is one exactly for exit code 2, whatever the error |
| Outcomes.ObserveSucceeds | internal/controller/cluster/workspace/workspace.go:367-413 | Observe succeeds exactly when the plan gives an answer, the state can be listed, a workspace to be removed can be, and outputs and checksum can be read |
| Outcomes.ObserveFails | internal/controller/cluster/workspace/workspace.go:373-398 | an Observe that fails gives the error of the first thing that went wrong; the status stays as it was until outputs are read, and is without a checksum if that cannot be taken |
| Outcomes.RemovalSucceeds | internal/opentofu/opentofu.go:271-310 | removal succeeds exactly when the current workspace is default, or default can be selected or made and the other deleted; then default is selected and the other is gone |
| Outcomes.UpdateSucceeds | internal/controller/cluster/workspace/workspace.go:421-450 | an update succeeds exactly when the options resolve, the files are written, apply succeeds and outputs can be read; an apply that runs replaces the selected workspace's state, failed or not |
| Outcomes.UpdateFails | internal/controller/cluster/workspace/workspace.go:427-440 | an update that fails leaves the status as it was and names what went wrong |
| Outcomes.DeleteSucceeds | internal/controller/cluster/workspace/workspace.go:452-465 | the same for a delete |
| Outcomes.LivingRound | internal/controller/cluster/workspace/workspace.go:176-450 | a living resource that is connected and observed is applied exactly when the plan sees a difference or its workspace is empty, and otherwise nothing changes in the backend |
| Outcomes.LivingConverges | internal/controller/cluster/workspace/workspace.go:176-450 | over every run in which no command fails, a plan sees a difference exactly while the workspace is not as wanted, and an apply brings it there: a resource, new or drifted, is applied in the first round if at all, is up to date in every later one, and ends as wanted |
| InitSkip.GuardExact | internal/controller/cluster/workspace/workspace.go:319-339 | the guarded and the unguarded phase end in the same state and result exactly when a matching checksum means that init would succeed and change nothing |
| InitSkip.ConnectRefines | internal/controller/cluster/workspace/workspace.go:176-340 | under the invariant on the stored checksum, Connect and a Connect that always runs init agree |
| InitSkip.RoundRefines | internal/controller/cluster/workspace/workspace.go:318-465 | so does a whole round, which also keeps that invariant |
| InitSkip.SkipRefinesAlways | internal/controller/cluster/workspace/workspace.go:318-339 | over every run with unchanged arguments and environment, skipping gives the same reports, directory, plugins, selection, backend and status as always running init |
| InitSkip.SkipRefinesFromStart | internal/controller/cluster/workspace/workspace.go:318-339 | so it does over every such run that begins without a stored checksum, whatever the directory holds |
| InitSkip.ChangedArgsAreMissed | internal/controller/cluster/workspace/workspace.go:319-339 | with changed arguments and unchanged files an init that would have made a difference is skipped |
| Quiescence.ConnectPlaces | internal/controller/cluster/workspace/workspace.go:242-339 | a successful Connect leaves all it writes in the directory, for an init that does |
| Quiescence.DiffHolds | internal/opentofu/opentofu.go:535-577 | a diff that succeeds leaves every variable file in place |
| Quiescence.CollidesExactly | internal/controller/cluster/workspace/workspace.go:257-266 | Connect and plan write different content to one file exactly when the last credential with a variable file's name has other bytes than that variable file |
| Quiescence.RunsInitMeans | internal/controller/cluster/workspace/workspace.go:318-339 | in a round said not to run init, Connect's result does not depend on what init would do; in one said to run it, a successful init's files are the directory |
| Quiescence.IdleRoundRests | internal/controller/cluster/workspace/workspace.go:242-413 | whatever came before, a round that ends with nothing to do, without a collision, ends at rest: the directory holds all that such rounds write and the stored checksum is the directory's |
| Quiescence.ConnectAtRest | internal/controller/cluster/workspace/workspace.go:242-339 | from rest Connect does not run init, and even one that fails only takes back writes that were cut short |
| Quiescence.RestStays | internal/controller/cluster/workspace/workspace.go:242-413 | from rest a round with nothing to do leaves directory, plugins, selection and checksum as they are |
| Quiescence.RestSurvives | internal/controller/cluster/workspace/workspace.go:242-396 | from rest a round that Connect, or for a living resource Observe before the checksum, cuts short leaves the status as it is and keeps at rest |
| Quiescence.Quiescent | internal/controller/cluster/workspace/workspace.go:242-339 | after one round with nothing to do and without a collision, however many follow that have nothing to do or are cut short, with the same inputs: none runs init, and checksum, plugins and directory stay the same |
| Quiescence.QuiescentExactly | internal/controller/cluster/workspace/workspace.go:242-413 | of such rounds, one of which has nothing to do, none runs init if and only if no credential collides with a variable file |
| Quiescence.SkipsExactly | internal/controller/cluster/workspace/workspace.go:242-326 | with the directory's checksum stored, init is skipped exactly when the write phase has nothing to change |
| Quiescence.CollisionDefeatsSkip | internal/controller/cluster/workspace/workspace.go:257-326 | with a collision, a checksum stored while the variable files were in place does not match when Connect has written its files |
| Quiescence.CollisionShows | internal/controller/cluster/workspace/workspace.go:242-413 | so in every run of such rounds the first that has nothing to do runs init, if none before did |
| WorkDir.GarbageCollector.Collect | internal/workdir/workdir.go:100-144 | either kind of pass: nothing changes if a list cannot be read; otherwise exactly the UUID-named directories not listed go, but for those that cannot be removed, whose paths are the error |
| WorkDir.GarbageCollector.RemoveGarbage | internal/workdir/workdir.go:125-137 | the loop goes on past failures and collects their paths |
| WorkDir.GarbageCollector.RunTicks | internal/workdir/workdir.go:81-93 | failed passes are passed over and the next tick comes |
| WorkDir.RemovedAll | internal/workdir/workdir.go:126-137 | removing one by one along any listing leaves the survivors given by a closed formula |
| WorkDir.ErrorNamesWhatIsLeft | internal/workdir/workdir.go:134-141 | a path is in the error exactly when its directory was garbage and could not be removed |
| WorkDir.ErrorKeepsOrder | internal/workdir/workdir.go:134-141 | the paths come in the order of the listing |
| WorkDir.SurvivorsExact | internal/workdir/workdir.go:81-144 | after any passes of either kind: files, other names, and directories listed in every pass survive, and nothing else |
| WorkDir.PassOrderIrrelevant | internal/workdir/workdir.go:81-144 | runs that agree on which names are always listed leave the same |
| WorkDir.PermutedTicks | internal/workdir/workdir.go:81-144 | the order of the passes does not matter |
| WorkDir.RepeatedPassIsNoOp | internal/workdir/workdir.go:81-144 | repeating a pass with its list changes nothing |
| WorkDir.OtherKindRemovesLiveDirectory | internal/controller/namespaced/workspace/workspace.go:110-111 | the directory of a workspace that only its own kind's lists name survives exactly when the other kind's collector has not passed |
| ProviderConfig.CredentialRoundTrip | internal/clients/client.go:121-127 | encoding and decoding a credential returns it, with absent parts absent |
| ProviderConfig.SpecRoundTrip | internal/clients/client.go:121-127 | the same for the spec, nil and empty credentials kept apart |
| ProviderConfig.LegacyPreservesSpec | internal/clients/client.go:116-136 | the conversion never fails, keeps every field of the spec, and of the metadata only name, labels and annotations |
| ProviderConfig.EnrichLocalSecretRefs | internal/clients/client.go:138-148 | through the pointers, shared or not, every secret reference gets the namespace and nothing else changes |
| ProviderConfig.NamespaceOnlyChange | internal/clients/client.go:138-148 | only the namespaces of references change, and the last namespace set is the one that counts |
| ProviderConfig.ResolveModern | internal/clients/client.go:67-114 | success exactly for a reference to a known kind that can be read and tracked; the references of a ClusterProviderConfig stay, those of a ProviderConfig are pointed at the resource's namespace even when tracking then fails |
| ProviderConfig.ResolveProviderConfig | internal/clients/client.go:39-65 | for each kind of managed resource: when it succeeds, and that the effective spec is the one read but for those namespaces |

## Left out

- The tofu binary, starting processes, SIGTERM and waiting: commands are replies; for the lock a command runs inside its call and ends.
- A context that ends while waiting for the lock: sync.RWMutex does not look at it either.
- The Kubernetes client, usage trackers, scheme lookup, leader election and requeueing: inputs of the operations.
- go-getter: a remote source replaces the directories by arbitrary content or fails.
- The shell pipeline of GenerateChecksum and how it prunes: an abstract function of the files and the selected workspace.
- The process environment, TF_PLUGIN_CACHE_DIR filtering and GIT_CRED_DIR: init sees only the Workspace's own variables and whether it uses the cache.
- Classify, gzip and base64, and the wording of errors that come from outside: a short name stands for them.
- Validate's result and FromModule: the controllers call neither; Validate appears only in the lock protocol.
- JSON text: encoding is modelled as trees, marshalling of outputs and variable maps as a partial function on values.
- Numbers and booleans of outputs: nothing in the controllers reads them by type.
- Rewriting of the entrypoint and where it points: an empty one is the topmost directory, any other a separate one whose files the topmost one's writes do not touch.
- A variable file with a source but without the reference for it makes the source panic: the model returns the error NilReference there.
- The ready condition, logging and metrics, and the reading of the managed resource's type.
- Connect, Observe, Update and Delete of the namespaced controller: they repeat the cluster's but for the reference resolution, which is modelled and shown to agree.
- Diff takes no lock, so the mutual exclusion says nothing about it.
- What a failing RemoveAll removes inside a directory: the directory counts as left.
- New directories appearing during a collector pass, and the ticker: a collector is a finite sequence of passes of any length.
- Controller.Connect: provider config resolution enters as an input, as ProviderConfig resolves it, not as a call.
