# nx-console workspace cache and debounced refresh, in Dafny

This project models two small state machines in the nx-console VS Code extension.

**The single-flight workspace cache.** This is `nxWorkspace(reset)` in
`libs/vscode/nx-workspace/src/lib/nx-workspace.ts`. It keeps two
module-level variables: a `status` (`not_started | in_progress | cached`)
and a `ReplaySubject` (`cachedReplay`).
- The first call after start-up or after a reset moves to `in_progress`
  and starts one `_workspace()` run, which reads the workspace.
- When that run resolves, its value is pushed into the subject and the
  status becomes `cached`.
- Every other call subscribes to the subject and gets its first value.
- `_workspace()` builds the `NxWorkspace` snapshot record from four reads.
  If building the record throws, it falls back to a default record and
  reports the error.

**The debounced refresh trigger.** This is `apps/vscode/src/commands/refresh-workspace.ts`.
- The `nxConsole.refreshWorkspace` command pushes a signal into a `Subject`.
- The subject is piped through `debounceTime(150)`.
- The handler awaits `nxWorkspace(true)`, then executes three refresh
  commands in order.

Files:
- `wrappers.dfy` has `Option` and `Settled` (a promise that resolved with a value, or rejected).
- `workspace.dfy` has `_workspace()` as the pure function `Compute`. It
  takes the results of its foreign calls as inputs and returns the outcome
  and the trace of host calls it makes.
- `workspace_cache.dfy` has the cache as a pure step relation
  (`RequestStep`, `SettleStep`, `Run`) over a `State`, with its invariant
  and the properties proved about it. It also has the class
  `NxWorkspaceCache`, whose fields are the module variables and whose
  methods `Request` and `Settle` are proved to follow that step relation.
- `refresh.dfy` has the trigger as the class `Refresher`. Its fields are a
  pending deadline, a millisecond clock, the handler runs and an effect
  log. It sits on top of an `NxWorkspaceCache`.
  `DebounceFires` is a reference definition of when `debounceTime` fires
  for a timeline of signals. `Refresher.SignalsAt` is proved to fire at
  exactly those times.

How the subject is modelled. Each subject ever installed in `cachedReplay`
is a generation `g`, and `emitted[g]` is the sequence of values pushed
into it. A caller that subscribed to generation `g` settles with
`emitted[g][0]`.

Each `_workspace()` run records two things when it starts: the generation
current then, and the stored path it reads. It settles in a separate step.

When a run resolves, it pushes into the generation current at that moment.
Line 70 reads the module variable when the value arrives. So a run that
was in flight across a reset feeds the new subject. Callers left on the
old, still empty subject are never resolved
(`WorkspaceCache.StaleSubjectNeverResolves`, `WorkspaceCache.ResetDuringFlight`).
This is the behaviour as written, and it is modelled as such.

The layout rule at lines 105-112 parses as
`(workspaceLayout?.appsDir ?? isLerna) ? 'packages' : 'apps'`. It is
modelled as written:
- A configured non-empty directory, whatever its value, yields `'packages'`.
- A configured empty string yields the default.
- An absent entry yields `'packages'` exactly for a lerna workspace.

## Model

| member | source | states |
|---|---|---|
| Workspace.Compute | libs/vscode/nx-workspace/src/lib/nx-workspace.ts:79-147 | the run rejects exactly when one of the four awaited reads rejects; a resolved record carries the stored path, is valid exactly when construction did not throw, and the first host call is the angular.json existence check |
| Workspace.LayoutDir | libs/vscode/nx-workspace/src/lib/nx-workspace.ts:105-112 | a layout directory is always 'packages' or the default literal |
| Workspace.RejectedReadIsNotCaught | libs/vscode/nx-workspace/src/lib/nx-workspace.ts:85-97 | a rejected read rejects the run, no later read is made and no error is reported: the reads lie outside the try |
| Workspace.ConfigFormatFollowsAngularJson | libs/vscode/nx-workspace/src/lib/nx-workspace.ts:89-93 | the third call is getNxWorkspaceConfig on the stored path, with 'angularCli' exactly when angular.json exists and with the isNxWorkspace result |
| Workspace.SuccessRecordFields | libs/vscode/nx-workspace/src/lib/nx-workspace.ts:85-115 | with all reads resolved and construction completing: valid record, 'ng' iff angular.json exists, isLerna iff lerna.json exists, the config's path and formatted workspace, the stored path, and exactly the four reads in order |
| Workspace.LayoutTruthTable | libs/vscode/nx-workspace/src/lib/nx-workspace.ts:105-112 | the full truth table of the layout rule as parsed: non-empty configured gives 'packages', empty configured gives the default, absent gives 'packages' iff lerna |
| Workspace.FallbackOnConstructionFailure | libs/vscode/nx-workspace/src/lib/nx-workspace.ts:116-146 | when construction throws, the run still resolves, with the exact default record and the stored path, after the error message, two output lines and one telemetry exception |
| Workspace.DiagnosticsOnlyOnFallback | libs/vscode/nx-workspace/src/lib/nx-workspace.ts:116-127 | an error is reported if and only if the run resolves with the invalid default record |
| WorkspaceCache.RequestStep | libs/vscode/nx-workspace/src/lib/nx-workspace.ts:48-76 | one call of nxWorkspace up to its first suspension preserves the cache invariant: one subject per generation, cached iff the current subject holds a value, runs ordered by the generation they started in |
| WorkspaceCache.SettleStep | libs/vscode/nx-workspace/src/lib/nx-workspace.ts:68-72 | a run settling preserves the cache invariant |
| WorkspaceCache.Run | libs/vscode/nx-workspace/src/lib/nx-workspace.ts:45-76 | any sequence of calls and settlements from a valid state preserves the cache invariant |
| WorkspaceCache.InitInvariant | libs/vscode/nx-workspace/src/lib/nx-workspace.ts:45-46 | the start-up state, not_started with one empty subject, satisfies the invariant |
| WorkspaceCache.SingleFlight | libs/vscode/nx-workspace/src/lib/nx-workspace.ts:61-76 | a call starts a run iff it resets or finds not_started, and then exactly one run on the stored path with status in_progress; any other call changes nothing and subscribes to the current subject |
| WorkspaceCache.CacheHit | libs/vscode/nx-workspace/src/lib/nx-workspace.ts:61-75 | with status cached, a non-reset call starts no run and settles at once with the subject's first value |
| WorkspaceCache.ResetRestarts | libs/vscode/nx-workspace/src/lib/nx-workspace.ts:49-59 | a reset installs a fresh subject, clears the angular.json then the workspace.json cache for the stored path (default ''), and always starts a new run |
| WorkspaceCache.RejectionLeavesCacheAlone | libs/vscode/nx-workspace/src/lib/nx-workspace.ts:68-72 | a rejected run only marks itself settled: status and every subject stay as they were |
| WorkspaceCache.LateRunFeedsCurrentSubject | libs/vscode/nx-workspace/src/lib/nx-workspace.ts:69-72 | a resolved run appends its value to the current subject, sets cached, and leaves the subject of its own, older generation untouched |
| WorkspaceCache.BurstJoinsFlight | libs/vscode/nx-workspace/src/lib/nx-workspace.ts:61-76 | while a run is in flight or cached, any number of further non-reset calls change nothing and all wait on the current subject |
| WorkspaceCache.SameValueForAll | libs/vscode/nx-workspace/src/lib/nx-workspace.ts:61-76 | one starting call and n joiners: exactly one run exists; if it resolves, the starter and every joiner get its value and status is cached; if it rejects, the starter rejects, status stays in_progress and the joiners keep waiting |
| WorkspaceCache.StepFrame | libs/vscode/nx-workspace/src/lib/nx-workspace.ts:45-76 | a step never removes generations or runs, only appends to the current subject, and never changes a settled run |
| WorkspaceCache.AnswersNeverChange | libs/vscode/nx-workspace/src/lib/nx-workspace.ts:61-76 | once a caller has settled, its answer is the same after any further steps |
| WorkspaceCache.StaleSubjectNeverResolves | libs/vscode/nx-workspace/src/lib/nx-workspace.ts:51 | callers on a subject that a reset replaced while it was still empty are never resolved, whatever happens afterwards |
| WorkspaceCache.OnlyResetsStartRuns | libs/vscode/nx-workspace/src/lib/nx-workspace.ts:49-76 | once started, the number of runs grows by exactly the number of reset calls |
| WorkspaceCache.CachedUntilReset | libs/vscode/nx-workspace/src/lib/nx-workspace.ts:61-75 | with no reset, a cached workspace stays cached on the same subject with the same first value, and no run starts |
| WorkspaceCache.ResetDuringFlight | libs/vscode/nx-workspace/src/lib/nx-workspace.ts:48-76 | call A starts a run and B joins it. Then C resets and D joins C's run. A's run feeds D and leaves B stranded; C gets its own value |
| WorkspaceCache.NxWorkspaceCache.constructor | libs/vscode/nx-workspace/src/lib/nx-workspace.ts:45-46 | the module variables start as not_started with one empty subject |
| WorkspaceCache.NxWorkspaceCache.Request | libs/vscode/nx-workspace/src/lib/nx-workspace.ts:48-76 | updating the module variables in place gives exactly RequestStep's state and wait; a run is started iff reset or not_started; otherwise no field changes |
| WorkspaceCache.NxWorkspaceCache.Settle | libs/vscode/nx-workspace/src/lib/nx-workspace.ts:68-72 | updating the module variables in place gives exactly SettleStep's state and keeps the invariant |
| Refresh.FanOut | apps/vscode/src/commands/refresh-workspace.ts:11-13 | exactly three command executions: 'nxConsole.refreshNxProjectsTree', 'nxConsole.refreshRunTargetTree', 'nx.graph.refresh', in that order |
| Refresh.DebounceFires | apps/vscode/src/commands/refresh-workspace.ts:8 | a timeline fires at most once per signal, and a non-empty one fires last at 150 ms after its last signal |
| Refresh.Coalescing | apps/vscode/src/commands/refresh-workspace.ts:8 | a burst of signals less than 150 ms apart fires the handler exactly once, 150 ms after the last signal |
| Refresh.QuietWindow | apps/vscode/src/commands/refresh-workspace.ts:8 | every firing is 150 ms after some signal and no signal falls strictly inside that window |
| Refresh.ThreeQuickSignals | apps/vscode/src/commands/refresh-workspace.ts:8 | signals at 0, 50 and 90 ms fire the handler once, at 240 ms |
| Refresh.Refresher.constructor | apps/vscode/src/commands/refresh-workspace.ts:6-8 | a fresh trigger has no pending window, no runs and an empty log |
| Refresh.Refresher.Signal | apps/vscode/src/commands/refresh-workspace.ts:8 | a signal opens the window or restarts the pending one, to end 150 ms later; there is never more than one pending window, and nothing else changes |
| Refresh.Refresher.RefreshWorkspace | apps/vscode/src/commands/refresh-workspace.ts:19-23 | executing 'nxConsole.refreshWorkspace' pushes exactly one signal and does nothing else |
| Refresh.Refresher.Tick | apps/vscode/src/commands/refresh-workspace.ts:8-10 | a window fires iff it is due; firing closes it, calls nxWorkspace(true) once (one cache reset step, so one new run) and records a handler run awaiting that run, before any command; otherwise nothing changes |
| Refresh.Refresher.Resume | apps/vscode/src/commands/refresh-workspace.ts:10-13 | an awaiting handler run continues once its workspace run has settled: on a value it appends the three commands in order; on a rejection it appends none |
| Refresh.Refresher.SignalsAt | apps/vscode/src/commands/refresh-workspace.ts:8 | driving the trigger with ascending signals and on-time ticks starts handler runs at exactly the times DebounceFires gives |
| Refresh.OverlappingRuns | apps/vscode/src/commands/refresh-workspace.ts:8-14 | a window can fire while the previous handler run is still awaiting its workspace: both runs then await, each on its own workspace run |

## Left out

- The file-system and configuration reads (`fileExists`, `checkIsNxWorkspace`,
  `getNxWorkspaceConfig`, `toWorkspaceFormat`) are foreign calls. Their
  results, and whether building the record throws, are inputs (`Io`).
  The configuration is reduced to its path, its optional layout
  directories and its formatted form.
- `clearJsonCache`, `window.showErrorMessage`, the output channel, telemetry
  and `commands.executeCommand` are host I/O. They are recorded as events
  (`cleared`, `HostCall`, `Effect`) and not modelled further. The
  `.then` of the error message, which may show the output channel, is left out.
- `WorkspaceConfigurationStore` is a parameter, the stored path (`Option<string>`, defaulting to `''`).
- The `e.toString ? e.toString() : JSON.stringify(e)` choice is left out:
  the stringified error is given inside `Construction.Throws`.
- RxJS and real timers are not modelled. The observable behaviour is
  modelled instead. `ReplaySubject` is a generation with its emitted
  values; a subscriber gets the first one. `debounceTime` is a deadline on
  an explicit millisecond clock.
- Workspace.Compute: the host calls of one run are produced together when
  it settles. Their interleaving in time with other calls is not modelled.
- Refresh.Refresher.Signal: a signal at exactly a window's deadline is
  ordered after that window fires. The method requires a due window to
  have fired first (`SignalAt` does this).
- The dynamic `import('@nx-console/vscode/nx-workspace')` at line 9 is
  taken to resolve. Its rejection is not modelled.
- The registration `Disposable` returned by `registerCommand` is not
  modelled. `RefreshWorkspace` is the registered callback.
- WorkspaceCache.SettleStep: settling a run that is unknown or already
  settled changes nothing, as a settled promise does.
