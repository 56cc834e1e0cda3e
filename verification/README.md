# Nicewatch in Dafny

Nicewatch is a daemon that gives processes their nice value, I/O priority and cgroup limits by rule, asks about
processes that look like games, keeps its rules in two config files, and feeds a GUI. It owns a small piece of kernel
and disk state and has to give it back intact. This project models the five state machines that carry those duties and
proves what holds over all their runs.

| part | modules |
|---|---|
| the cgroup manager over a model cgroup v2 file system | `Cgroupfs`, `Limits`, `Enrolment` (micro-steps), `CrashSafety` (all runs, with kills), `OperationRuns`, `Sweeping`, `Clearing` (repeated sweeps), `SelfHealing`, `Rewrites` (which dirs a poll writes), `HealingRuns` (limits over all runs), `Manager` (the objects), `BaseDiscovery` |
| the two-file config protocol | `SyncSteps`, `ConfigSync` (the objects), `SyncRuns`, `SyncQuiet` |
| the rule index and the GUI's edits | `Config`, `Rules`, `Edits` |
| the snapshot/diff replica protocol | `Tables`, `Replica`, `ServerRuns` (the server's queues and the main loop in the protocol) |
| the poll loop | `PollLoop`, `MainLoop` (the objects), `PollRuns`, `Reconcile`, `StatLine` |
| shared vocabulary | `Wrappers`, `Text`, `Ascend` |

Code that updates fields is a class (`Manager.CgroupManager`, `ConfigSync.Sync`, `MainLoop.Loop`, `Replica.IpcHandle`,
`Tables.Store`, `Reconcile.Scheduler`) whose every method is proved to take its state exactly where a function takes it.
The theorems are about those functions and about runs built from them. `MainLoop.Loop.Poll` ties the parts together: the
loop object works on the config object, the cgroup manager, the scheduler and the server. One poll takes the manager
exactly where `SelfHealing.Poll` says for the wants that the scan decides on (a run of micro-steps, `PollIsRun`), applies
the targets decided on to the processes, and sends the difference of the two tables (a step of the replica protocol,
`LoopAgreement`).

## What is assumed of the surroundings

- Cgroups: moving a process back to its origin succeeds and the state file can be written (both may fail elsewhere in
  the model: enrolling, creating dirs, writing limits and controllers fail at will). A process is born in its parent's
  cgroup. Nobody but the daemon moves processes; a pid is not reused while the daemon still remembers it; the cgroups
  processes are born in are not the daemon's own dirs. The state file is written in one step.
- Config files: every write gets a new, larger mtime; the clock does not go back; what the daemon renders parses to the
  same config. Everything else about file contents is arbitrary, and so is the order of edits, notifications, polls and
  ticks.
- Sweeps: processes may be moved to the strays dir, and no rule's explicit path is the base, lies above it, or is the
  strays dir. Paths may be nested in each other in any way.
- A control file of a new dir, or one that comes back with its controller, is at the kernel's default; idleness makes the
  kernel reject a weight.
- While a poll deals with a process, its nice value is the one that the poll has just scanned. The table keeps that value,
  so it may be out of date when a client message comes.
- CPU% values are real numbers. A listing of `/proc` names each pid once.

## Where the code does not do what it says

Each of these is a lemma below; the condition is exact where an "Iff" stands in its name.

- A kill after the move into a managed dir and before the state file is written loses that one process's origin, and
  nothing else (`CrashRecovery`). The fallback to a persisted origin is never taken while the state file is writable
  (`OriginIsWhereItLives`).
- systemd dropping `cpu` and restoring it between two polls resets limits that are not rewritten. Over every run, whoever
  lives in a dir below the base lacks a value exactly if the dir was last written before the last drop and the limits ask
  for a cpu value, once the controller is back one that is not the default (`RunHealsIff`); quiet polls never heal it
  (`QuietPollHealsIff`, `UndoneDropIsNotHealed`). A weight asked of a dir that is idle is rejected, the memory limits behind
  it are not reached, and all of them are recorded as written (`SyncRewritesIff`, `IdleKeepsWeightOut`); no later poll makes
  up for it (`IdleKeepsLimitsOut`).
- Two sweeps clear everything exactly if nothing that is there to stay lies inside a dir that could go, and no three
  such dirs are nested in each other; `n` sweeps, exactly if no `n + 1` are (`SweepsClearIff`). Three nested empty dirs
  need a third sweep (`NestedDirsNeedMoreSweeps`); an empty managed dir around one that is in use is never removed
  (`BlockedForEver`).
- The retries of the base search never follow a walk in which every dir creation was refused (`NoRetryPastRefusals`).
- The module comment of sync.rs says that mtimes are compared on every change; they are compared only at start, and
  later the file noticed last wins, even an older local one over a newer root one (`NewerWinsIff`). And at start a newer
  file that does not parse leaves the defaults in effect although the older one may parse (`NewerWinsAtBootIff`).
- A pending promotion that comes due before a held-back local write causes two promotions of one burst
  (`AtMostOnePromotionIff`). An edit by somebody else within a second of the daemon's own write is taken for that write
  and never looked at again (`ForeignEditNoticedIff`).
- Removing a cap drops a lone `cpu_idle` (`CapRemovalKeepsOthersIff`, `CapUndoneIff`).
- A tier edit does not decide when a later rule key matches the same name (`TierEditDecidesIff`), and it is lost when a
  config file is loaded between the edit and the poll (`TierEditReachesPollIff`, `ReloadLosesTierEdit`).
- A tier edit's immediate effect is not that of the next poll: with the tier's nice in the table nothing is called although
  the process may have another by now, and with another value in the table a user daemon takes away a negative nice value
  that the poll would have left alone (`ImmediateMatchesPollIff`, `StaleTableMisleads`). It does not spare real-time
  processes (`ImmediateSparesRtIff`).
- The hard exclusion of desktop-critical processes yields to a "not now" answer naming one (`Exclusion`,
  `StrayAnswerReachesCompositor`) and to a tier edit (`TierEditTouchesIff`). An entry of its list
  excludes the program it names exactly if it has at most 15 characters, to which the kernel cuts names
  (`EntryExcludesIff`).
- A nice value out of range, said to be ignored, is written again at every poll (`NeverSettles`).
- The sweep reads a name only up to its first closing parenthesis, the scan up to the last (`CommOfAgreesIff`). The
  real-time test reads another field when the name contains whitespace (`RtTestCorrectIff`).
- The greeting is the first thing a client gets exactly if nothing is broadcast between its registration and the
  greeting (`GreetingFirstIff`, `WarningBeforeGreeting`).

## Model

| member | source | states |
|---|---|---|
| CrashSafety.HomeRestoration | daemon/src/applier.rs:253-353 | between operations of any run (switches, failed enrols, forks, exits, kills, restarts) an enrolled process is in its recorded dir with its birth cgroup as origin, any other is at home, the state file mirrors the table, and no more homes are lost than there were kills |
| CrashSafety.CrashRecovery | daemon/src/applier.rs:159-205 | killed at any micro-step of any run, the next daemon's recovery brings a live process home if and only if it is not the single one moved but not yet persisted |
| CrashSafety.RecoverMovesRecorded | daemon/src/applier.rs:184-203 | recovery moves a process only out of the dir recorded for it, and enrols nobody |
| CrashSafety.OriginIsWhereItLives | daemon/src/applier.rs:301-326 | the origin recorded at enrolment is always the process's cgroup at that moment |
| CrashSafety.ShutdownReturnsEveryone | daemon/src/applier.rs:431-440 | after any run, a shutdown in any order leaves every process at home, nobody enrolled and nothing to recover |
| CrashSafety.RunKeepsInv | daemon/src/applier.rs:159-468 | the placement invariant of every micro-step is kept by every event of every run |
| CrashSafety.FinishKeepsInv | daemon/src/applier.rs:456-468 | running an operation in progress to its end keeps that invariant |
| OperationRuns.SyncIsRun | daemon/src/applier.rs:253-344 | a whole `sync_pid` is a run of the machine's own steps, so what holds of runs holds of calls |
| OperationRuns.ForgetIsRun | daemon/src/applier.rs:348-353 | so is a whole `forget` of an exited process |
| OperationRuns.SweepIsRun | daemon/src/applier.rs:365-428 | so is a whole sweep, in any order of dirs |
| OperationRuns.PollIsRun | daemon/src/main.rs:314-502 | so is everything a whole poll does to cgroups: controllers, reconciles, sweep, flag, forgetting the exited |
| OperationRuns.ShutdownIsRun | daemon/src/applier.rs:431-440 | so is a shutdown, in any order that covers the table |
| OperationRuns.StartIsRun | daemon/src/applier.rs:91-113 | a kill and the next daemon's start, recovery and controllers, are a run |
| OperationRuns.PollKilledAnywhere | daemon/src/main.rs:314-502 | after any run, a poll killed after any number of its micro-steps: recovery brings every process with a home back, exactly except the one moved but not yet persisted |
| Enrolment.UnenrollDirect | daemon/src/applier.rs:456-468 | the micro-steps of an unenrol add up to: out of the table, back to the origin, dir pruned, state saved |
| Enrolment.ForgetDirect | daemon/src/applier.rs:348-353 | the micro-steps of a forget add up to the same without a move |
| Enrolment.FinishJoining | daemon/src/applier.rs:301-341 | the micro-steps of an enrolment add up to dir, limits, move, table entry and state file, stopping at the first refusal with the table unchanged |
| Enrolment.SyncDirect | daemon/src/applier.rs:253-344 | `sync_pid` by cases: no base, no limits, same dir, other dir |
| Enrolment.SyncEnrolsIff | daemon/src/applier.rs:297-341 | reconciling with another dir enrols the process there, moved, with every value written and its origin recorded, exactly if dir, limits and move are taken; otherwise it is enrolled nowhere and stays where the unenrol left it |
| Enrolment.SyncReleasesIff | daemon/src/applier.rs:342-342 | reconciling without limits takes the process out of the table, and home exactly if the kernel takes the move |
| Enrolment.AutoDirIsNwChild | daemon/src/applier.rs:269-279 | without an explicit path a rule's dir is a direct `nw-` child of the base, in one plain component, whatever the rule's name |
| Enrolment.RecoverDirect | daemon/src/applier.rs:184-204 | the recovery steps add up to one pass over the recorded pids in ascending order |
| Limits.ApplyMeaning | daemon/src/applier.rs:513-551 | `apply_limits` succeeds exactly when every size is well formed and the kernel would take every write now; then every value is in place; nothing outside the dir's files changes |
| Manager.CgroupManager.constructor | daemon/src/applier.rs:91-113 | starting recovers from the state file alone, then asserts the controllers |
| Manager.CgroupManager.EnsureControllers | daemon/src/applier.rs:126-151 | controllers on; a rewrite is due exactly if `cpu` had gone and the write was taken |
| Manager.CgroupManager.Persist | daemon/src/applier.rs:207-223 | the state file becomes the projection of the table |
| Manager.CgroupManager.RecoverOrphans | daemon/src/applier.rs:162-205 | the object takes the micro-steps of recovery |
| Manager.CgroupManager.ApplyLimits | daemon/src/applier.rs:513-551 | the object issues the requests of the limits in order, up to the first failure |
| Manager.CgroupManager.Enroll | daemon/src/applier.rs:507-511 | dir, limits, move, each only if the one before succeeded |
| Manager.CgroupManager.Unenroll | daemon/src/applier.rs:456-468 | the object takes the micro-steps of an unenrol |
| Manager.CgroupManager.SyncPid | daemon/src/applier.rs:253-344 | the object takes the micro-steps of a reconcile |
| Manager.CgroupManager.Forget | daemon/src/applier.rs:348-353 | the object takes the micro-steps of a forget |
| Manager.CgroupManager.PruneDir | daemon/src/applier.rs:471-487 | an empty leaf dir goes, with its files and its place among the created dirs; otherwise nothing changes |
| Manager.CgroupManager.SweepStrays | daemon/src/applier.rs:365-428 | the loops over dirs and pids amount to the sweep function, for some order of the created dirs |
| Manager.CgroupManager.ParkStrays | daemon/src/applier.rs:370-406 | all strays of one dir are parked, in whatever order they are listed |
| Manager.CgroupManager.AdoptLeftBehind | daemon/src/applier.rs:411-427 | the `nw-` children not known yet are adopted, the empty ones removed |
| Manager.CgroupManager.Shutdown | daemon/src/applier.rs:431-440 | everybody in the table is unenrolled, in some order, and the state file is dropped |
| Sweeping.SweepSpares | daemon/src/applier.rs:355-428 | a sweep never moves an enrolled or critical process, never changes the table or the state file, and moves others only to the strays dir |
| Clearing.SweepsClearIff | daemon/src/applier.rs:365-428 | from any placement of processes, any created dirs and any nesting, every series of `n` sweeps leaves only enrolled or critical processes in managed dirs, none of them empty, with nothing for a further sweep to change, if and only if below every managed dir without such processes there are only such dirs and no more than `n` of them are nested |
| Clearing.TwoSweepsClear | daemon/src/applier.rs:411-427 | two sweeps and a third that changes nothing, also from the empty set of created dirs that a crash leaves |
| Clearing.BlockedForEver | daemon/src/applier.rs:471-487 | a managed dir with nobody to stay in it, around a dir that stays, survives any number of sweeps in any orders |
| Clearing.OneSweep | daemon/src/applier.rs:365-428 | a sweep removes the leaves among the created dirs that hold nobody enrolled or critical, removes nothing else of what it found there but such dirs, and leaves no stray in any created dir |
| Clearing.NestedDirsNeedMoreSweeps | daemon/src/applier.rs:275-279 | three nested explicit paths, empty: some two sweeps leave one standing |
| SelfHealing.PollHeals | daemon/src/applier.rs:126-157 | after a poll that found `cpu` dropped, or everything in order, every live enrolled process has the limits of its current rule recorded, and its dir holds all of them unless it was idle at the start and they ask for a weight |
| SelfHealing.QuietPollHealsIff | daemon/src/applier.rs:281-296 | a poll without rule changes leaves the limits in place exactly if they were, defaults brought back with the controller included, or `cpu` was missing at its start |
| SelfHealing.SyncRewritesIff | daemon/src/applier.rs:281-296 | a rewrite in the same dir, all else being writable, goes through exactly if no weight meets an idle dir; then every value is held, otherwise weight and memory limits are what they were; recorded as written either way |
| Limits.WillingAppliesIff | daemon/src/applier.rs:519-531 | with everything else writable `apply_limits` succeeds exactly if it asks no weight of an idle dir |
| Limits.StuckStops | daemon/src/applier.rs:529-548 | where it does, at most the cap is written and the memory limits are not reached |
| HealingRuns.RunHeals | daemon/src/main.rs:314-319 | over every run of polls with any rules, forks, exits and drops that stay in force, each poll ends with the limits of every live enrolled process recorded and held, idle dirs asked for a weight excepted |
| Rewrites.PollHealsDirIff | daemon/src/applier.rs:281-341 | whoever lives in a dir after a poll has the limits of its current rule recorded, and the dir holds them (an idle one asked for a weight apart) exactly if the poll wrote the dir or it held them before |
| HealingRuns.RunHealsIff | daemon/src/applier.rs:126-151 | at every moment of every run of polls with any rules, forks, exits, drops and restores, and for every dir never asked for a weight while idle: whoever lives in it lacks a value exactly if the dir is below the base, was last written before the last drop, and the limits ask for a cpu value (with the controller back: for one that is not its default) |
| HealingRuns.UndoneDropIsNotHealed | daemon/src/applier.rs:144-150 | after a drop undone before the next poll, and without another drop, no number of quiet polls gives a process below the base a cpu value other than the default |
| HealingRuns.IdleKeepsLimitsOut | daemon/src/applier.rs:519-548 | an idle dir that rules ask for a weight never gets the weight nor a memory limit, through any number of polls, whatever other rules do |
| SelfHealing.IdleKeepsWeightOut | daemon/src/applier.rs:284-293 | a change from idle to weight in the same dir is rejected, recorded as written, and not retried |
| SelfHealing.SyncAllMidway | daemon/src/main.rs:425-433 | half-way through a poll, processed pids hold the plan and the others hold it if nothing about them is due |
| BaseDiscovery.DiscoverCgroupBase | daemon/src/applier.rs:591-658 | the nested retry loops end, and compute the function of the ancestor chain and the probe outcomes |
| BaseDiscovery.BaseIsSafeAndNearest | daemon/src/applier.rs:577-658 | a base is the daemon's cgroup or an ancestor below the cgroup root, with no boundary from there up to it, and in some round it took a write while every nearer one above the daemon's own refused dirs |
| BaseDiscovery.WalkMeaning | daemon/src/applier.rs:622-654 | a walk ends at a candidate exactly if it may pass every nearer one and this one is no boundary and takes a write |
| BaseDiscovery.RetryMeaning | daemon/src/applier.rs:645-655 | a walk leads to another round exactly if it meets, past candidates it may pass, one above the daemon's own that takes dirs but no writes |
| BaseDiscovery.RoundsMeaning | daemon/src/applier.rs:621-657 | a base is found exactly if some round's walk ends at it and every round before led to another |
| BaseDiscovery.JudgeMeaning | daemon/src/applier.rs:626-644 | a candidate is found exactly if some attempt writes and all before it failed only to write; it is passed as a leaf exactly if its first dir creation fails |
| BaseDiscovery.NoRetryPastRefusals | daemon/src/applier.rs:610-625 | refusals of dirs up to a boundary end the search in the first round, whatever later probes would meet |
| ConfigSync.Sync.constructor | daemon/src/sync.rs:82-99 | a fresh object, with the promote debounce raised to its minimum |
| ConfigSync.Sync.InitialLoad | daemon/src/sync.rs:102-139 | the newer file wins, root on ties; what does not parse leaves the defaults |
| ConfigSync.Sync.OnPathChanged | daemon/src/sync.rs:143-162 | own writes are ignored, local edits become pending, root edits cancel the pending promotion |
| ConfigSync.Sync.PollMtimes | daemon/src/sync.rs:166-178 | local then root, each only if its mtime differs from the last one seen |
| ConfigSync.Sync.Tick | daemon/src/sync.rs:183-200 | a due local write is flushed, then a settled unchanged local file is promoted |
| ConfigSync.Sync.WriteLocalFile | daemon/src/sync.rs:283-308 | a successful write registers itself and starts the promote clock; a failed one changes nothing |
| ConfigSync.Sync.PromoteFile | daemon/src/sync.rs:311-344 | the local text becomes the root text, or the pending promotion is given up |
| ConfigSync.Sync.UpsertPresetRule | daemon/src/sync.rs:207-214 | the object makes the tier edit and schedules the write |
| ConfigSync.Sync.UpsertCapRule | daemon/src/sync.rs:219-266 | the object makes the cap edit and schedules the write |
| SyncRuns.SettledPromotion | daemon/src/sync.rs:180-200 | every write of root copies a local version that parses, which the daemon loaded or wrote itself, at least the debounce ago, and which has been the local file ever since, in every run |
| SyncRuns.OnlyTicksWriteRoot | daemon/src/sync.rs:311-344 | nothing but such a tick or an outsider changes the root file |
| SyncRuns.LastRegistration | daemon/src/sync.rs:362-379 | whenever the local file still matches its stamp, some event of the run noted exactly this version and nothing has touched it since |
| SyncRuns.RunKeepsInv | daemon/src/sync.rs:143-200 | the stamps never run ahead of clock and mtimes, and a local file matching its stamp always parses |
| SyncRuns.NewerWinsAtBootIff | daemon/src/sync.rs:102-139 | for any two files, a config from a file is in effect at start exactly if the newer one (root on a tie) parses; else the defaults are; and a promotion is pending exactly if that file is the local one |
| SyncRuns.NewerWinsIff | daemon/src/sync.rs:8-19 | of two files edited later the newer one wins exactly if it is noticed last; an older local file noticed last overwrites root |
| SyncQuiet.ComesToRest | daemon/src/sync.rs:381-393 | left alone the daemon never reloads because of its own writes, writes the local file at most once, and every write uses up a measure of the pending flags |
| SyncQuiet.AtRestNothingMoves | daemon/src/sync.rs:183-200 | with nothing pending no continuation changes anything but clock and seen mtimes |
| SyncQuiet.AtMostOnePromotionIff | daemon/src/sync.rs:185-198 | no quiet continuation promotes twice, exactly unless a pending promotion can come due before a held-back local write |
| SyncQuiet.EditsReachBothFiles | daemon/src/sync.rs:183-200 | with a local write pending, a due tick and a settled tick leave exactly one local write behind and both files parsing to the active config |
| SyncQuiet.BurstConverges | daemon/src/sync.rs:277-281 | any burst of GUI edits makes one local write, due the write debounce after the last edit, and both files end up with all edits applied |
| SyncQuiet.ForeignEditNoticedIff | daemon/src/sync.rs:381-393 | an outsider's edit is noticed exactly if its mtime is at least the tolerance past the daemon's own write |
| Edits.LastEditsWin | daemon/src/sync.rs:207-266 | after any interleaving of tier and cap edits the scheduling half is the last tier's preset and the cap the last one set, each with its fallback, and no other rule changed |
| Edits.TierAndCapCommute | daemon/src/sync.rs:207-266 | a tier edit and a cap edit commute |
| Edits.InterleavingIsIrrelevant | daemon/src/sync.rs:207-266 | every mix of edits equals its tier edits followed by its cap edits |
| Edits.CapUndoneIff | daemon/src/sync.rs:221-249 | setting and removing a cap restores the config exactly if there was no cgroup block, or one with more than `cpu_idle` |
| Edits.CapRemovalKeepsOthersIff | daemon/src/sync.rs:225-235 | removing a cap keeps the other limits exactly if `cpu_idle` is unset or not alone |
| Edits.TierEditDecidesIff | daemon/src/sync.rs:202-214 | a tier edit decides for all flags and ages exactly if no later key matches the name |
| Rules.FromConfig | daemon/src/rules.rs:45-54 | the index built by the loop answers every name as a scan in key order keeping the last match |
| Rules.GreatestKeyWins | daemon/src/rules.rs:47-49 | the rule found is the one under the greatest matching key |
| Rules.BuildMeaning | daemon/src/rules.rs:56-74 | index lookup and scan agree on every name |
| Tables.DiffTables | daemon/src/main.rs:684-716 | added, updated and removed are exactly the new, the changed and the gone entries |
| Tables.DiffMeaning | gui/src/lib/store.svelte.ts:98-108 | applying a difference gives the new pid set, with shipped entries exact and the others kept |
| Tables.SortedMeaning | gui/src/lib/store.svelte.ts:106-106 | the sorted list is strictly ascending by pid and indexes back to the same table |
| Tables.Store.OnSnapshot | gui/src/lib/store.svelte.ts:88-92 | the list becomes the snapshot's |
| Tables.Store.OnDiff | gui/src/lib/store.svelte.ts:98-106 | the loops over removed, added and updated entries amount to applying the difference and sorting |
| Replica.IpcHandle.Register | daemon/src/ipc.rs:53-57 | a new client gets a new id and an empty queue, the others keep theirs |
| Replica.IpcHandle.Take | daemon/src/ipc.rs:117-122 | the writer gets the oldest message of its own queue |
| Replica.IpcHandle.Broadcast | daemon/src/ipc.rs:31-47 | every live client's queue grows by the message, the dead ones are dropped |
| Replica.IpcHandle.Unregister | daemon/src/ipc.rs:59-61 | only that client's queue goes |
| Replica.IpcHandle.Greet | daemon/src/ipc.rs:99-110 | the greeting is appended to that client's queue alone |
| Replica.GreetingFirstIff | daemon/src/ipc.rs:99-110 | the first message of a client is the greeting exactly if nothing is broadcast between its registration and the greeting |
| Replica.WarningBeforeGreeting | daemon/src/ipc.rs:100-106 | a warning sent in between stands before the greeting |
| Replica.ReplicaAgreement | daemon/src/main.rs:493-557 | over every run, once a snapshot is queued, reading all that is unread gives exactly the daemon's pids in order, every compared field exact, and CPU% off by at most 0.05 for each poll since that pid was last shipped |
| ServerRuns.ServerAgreement | daemon/src/ipc.rs:31-61 | every sequence of calls on the server's map of queues is a run of the protocol with the same queues, so the agreement holds of what the server has queued |
| ServerRuns.LoopAgreement | daemon/src/main.rs:267-557 | whatever sequence of polls, reloads, promotions and answers the loop goes through, and whatever clients do meanwhile, its server is in agreement with its own table |
| Replica.DriftIsReached | daemon/src/main.rs:718-731 | that bound is attained, for every number of polls |
| Replica.CloseStep | daemon/src/main.rs:684-731 | one difference keeps a copy close, adding one step of CPU% to what was not shipped |
| MainLoop.Loop.constructor | daemon/src/main.rs:150-160 | the loop starts with the index of the config loaded first and empty sets |
| MainLoop.Loop.ReloadConfig | daemon/src/main.rs:289-311 | watcher events, mtime poll, one rebuild and one snapshot if anything was reloaded, tick, and another snapshot if it promoted |
| MainLoop.Loop.HandleClientMsg | daemon/src/main.rs:757-862 | every message's effect on config, index, prompts and sets, on the processes at once, and the snapshot of the table that answers it |
| MainLoop.Loop.Judge | daemon/src/main.rs:350-423 | one process: cached or fresh flags, rule, exclusion, instance games, ownership, in this order; the whole target and the row |
| MainLoop.Loop.ScanAll | daemon/src/main.rs:344-473 | the scan loop, which writes the cache it reads, judges every process as the state at its start would, reconciles its cgroup with the limits decided on, applies the target to it, and enters it in the table with its I/O priority and cgroup as they are then |
| MainLoop.Loop.Prune | daemon/src/main.rs:504-516 | exactly the names seen stay in the three sets |
| MainLoop.Loop.FreshGameNames | daemon/src/main.rs:733-754 | the sorted list without duplicates of exactly the detected, unknown, undecided names with their pids |
| MainLoop.Loop.AskEach | daemon/src/main.rs:521-550 | every name is marked asked; without a client it becomes an instance game and suppressed |
| MainLoop.Loop.Poll | daemon/src/main.rs:314-557 | the poll's loops amount to scan, prune and ask; the manager is taken where a poll with the wants of the scan takes it, every process where its target does, the table to the scanned one, and the server is sent the prompts and then the difference of the two tables, or a first snapshot |
| MainLoop.RemovedIff | daemon/src/main.rs:493-502 | the pids forgotten are those of the table before that the scan has not seen |
| MainLoop.JudgedAsAtStart | daemon/src/main.rs:373-380 | cache entries written earlier in a scan never affect a later process of it |
| MainLoop.SortDedupSorts | daemon/src/main.rs:751-752 | sorting and dropping duplicates gives strictly ascending prompts |
| PollRuns.IndexCoherence | daemon/src/main.rs:289-311 | at every moment of every run the index in use answers as a scan of the active config in key order, through edits, reloads, writes and poll-interval changes |
| PollRuns.PromptIff | daemon/src/main.rs:518-527 | a poll asks about exactly the processes this scan shows to look like games under an unknown, uncovered, undecided name; cached flags play no part |
| PollRuns.OnePollOfPrompts | daemon/src/main.rs:231-237 | between two polls that ask about a name lies one in which nobody carried it |
| PollRuns.PromptsAreUncovered | daemon/src/main.rs:504-548 | whoever is asked about has no rule in the active config and no suppression; after a poll the three sets hold only names seen in it |
| PollRuns.NotNowLastsUntilExit | daemon/src/main.rs:828-832 | "not now" gives the auto-game preset and no more prompts while the name keeps appearing, and is forgotten by the first poll that misses it |
| PollRuns.Exclusion | daemon/src/main.rs:393-418 | over every run a critical process is resolved exactly if touchable and a "not now" naming it stands; another user's process never, unless root |
| PollRuns.HonestAnswersExclude | daemon/src/main.rs:393-400 | if "not now" only names what was asked about, no poll of any run resolves a critical process |
| PollRuns.StrayAnswerReachesCompositor | daemon/src/main.rs:402-412 | one stray answer makes the compositor get the game preset |
| PollRuns.TierEditTouchesIff | daemon/src/main.rs:787-804 | a tier edit reschedules at once exactly the processes of that name, excluded or not |
| PollRuns.EntryExcludesIff | daemon/src/game_detect.rs:56-82 | an entry of the list excludes the program it names exactly if it is no longer than a kernel process name; a longer one matches no process |
| PollRuns.TierEditReachesPollIff | daemon/src/main.rs:267-311 | after a tier edit and any events up to the poll, further client messages and loads among them, all touchable processes of the name get that tier exactly if, with no file loaded since, no other tier has been set for the name, its cgroup block is as it was, and every later key that matched it has been given a tier of its own; or, with a file loaded, if that file and the edits after it ask for the same |
| PollRuns.LoadsAndEditsCount | daemon/src/main.rs:267-311 | at every moment of every run the config in effect is the last one loaded, by the guards of own writes, seen mtimes and parsing, with the edits made since, and the index is its index |
| PollRuns.ReloadLosesTierEdit | daemon/src/main.rs:294-307 | a root file without the rule, noticed before the poll, undoes the edit |
| Reconcile.IoprioRoundTrip | daemon/src/applier.rs:776-803 | every class and priority written is read back |
| Reconcile.IoprioReadBackIff | daemon/src/applier.rs:783-794 | a value read is written back unchanged exactly if its class is one of four and its priority one byte |
| Reconcile.Scheduler.ApplyTo | daemon/src/main.rs:607-682 | the calls issued for one process and the process left behind; no other is touched |
| Reconcile.Scheduler.Renice | daemon/src/applier.rs:757-774 | a user daemon asks for no negative value; a call for a process that is gone has no effect |
| Reconcile.Scheduler.ApplyNow | daemon/src/main.rs:841-862 | the calls of a tier edit's immediate effect on one process, decided by the nice value in the table, and the process left behind |
| Reconcile.ImmediateMatchesPollIff | daemon/src/main.rs:841-862 | on a process that is not real-time a tier edit's immediate effect is that of the next poll exactly if, with the tier's nice in the table, the poll would leave the present value alone; with another value there, if the daemon is root or the present value is not negative and at least the tier's |
| Reconcile.ImmediateSparesRtIff | daemon/src/main.rs:841-862 | a real-time process is left as it is exactly if table or kernel rule the change of nice out and the I/O priority is unwanted, there, or refused |
| Reconcile.StaleTableMisleads | daemon/src/main.rs:432-459 | a root daemon's edit that does nothing because the table is out of date, and a user daemon's that takes a negative value away |
| Reconcile.NiceAfter | daemon/src/main.rs:621-648 | root gets its target in range; a user daemon's process is left alone or raised, never below 0 |
| Reconcile.NeverLowers | daemon/src/main.rs:613-630 | a user daemon never lowers a nice value, both clamps composed; real-time processes are left alone |
| Reconcile.SettlesIff | daemon/src/main.rs:601-682 | the next poll issues no call exactly if real-time, or nice reachable and I/O priority unwanted, there, or accepted |
| Reconcile.SettledForGood | daemon/src/main.rs:601-606 | then no later poll issues one either |
| Reconcile.NeverSettles | daemon/src/config.rs:27-33 | with a nice out of reach every poll writes again |
| StatLine.StatRoundTrip | daemon/src/proc_scan.rs:136-156 | parsing the printed line returns every field and the name with outer whitespace removed, whatever it contains |
| StatLine.StatRoundTripIff | daemon/src/proc_scan.rs:138-144 | the name too exactly if it has no outer whitespace |
| StatLine.CommOfAgreesIff | daemon/src/proc_scan.rs:203-210 | the sweep reads the same name exactly if it has no closing parenthesis and no outer whitespace |
| StatLine.IsRtScheduled | daemon/src/applier.rs:736-755 | the loop takes the 41st word |
| StatLine.PolicyLooksAt | daemon/src/applier.rs:738-752 | with a name of n words it looks n - 1 fields before the policy |
| StatLine.RtTestCorrectIff | daemon/src/applier.rs:729-755 | it reads the policy on every line exactly for names without whitespace |

## Left out

- Real system calls, `/proc` and sysfs reading, sockets, threads, signals and the file watcher: environment events and abstract state take their place.
- TOML and JSON text: `parse` is a function of abstract text, with the daemon's own rendering parsing back; the state file is a table, no file, or one that does not decode.
- Floating point: CPU% is a real number, so rounding of single-precision differences is not captured.
- Warnings, `warned` sets and `FailureTracker`, and the validation warnings of config.rs: they do not affect the modelled state.
- known_games.rs: whether an entry or a name is in the catalog is an arbitrary input; so are the outcomes of the environment, fd and command-line checks.
- The plain-file-system fallbacks of `prune_dir`, and explicit rule paths outside the cgroup mount point.
- Replica: the path by which a GUI window that subscribes late asks for the current state; rules, prompts and system figures in a snapshot; `exe` and the start time, which are not compared and may be stale in the copy.
- MainLoop.Loop.Poll: how CPU% is computed from ticks, the system's CPU and memory figures, and warnings; broadcasts find the server as the one before left it (`ServerRuns` has clients come and go in between).
- Reconcile.IoprioRoundTrip: the shift and the bitwise or of the packed value are written as multiplication and addition, which agree because the priority fits below the class bits.
- Two configs edited within one mtime granule, torn writes of the state file, and pid reuse between polls.
- The rest of the GUI, tray, settings, command line, setup and shell scripts.
