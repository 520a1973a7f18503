# Viaduct: verified core

Viaduct moves virtual machines between hypervisors. This project models, in Dafny, the self-contained
algorithms and state machines around its I/O, and proves what they promise for every input, every run or every
reachable state.

| part | modules | source |
|---|---|---|
| wave planner | `DependencyGraph`, `GreedySchedule`, `WavePlanner`, `WavePlanTheorems`, `Matcher`, `Keyed`, `PlanOrder`, `ExecutionPlan` | `internal/migrate/plan.go`, `internal/migrate/matcher.go` |
| workspace job executor | `TenantDepths`, `ExecutorModel`, `ExecutorInvariant`, `ExecutorTheorems`, `ExecutorAnswers`, `ExecutorShutdown` | `internal/api/workspace_executor.go`, `internal/api/workspaces.go` |
| migration, checkpoints, rollback | `Checkpoints`, `RunTrace`, `Effects`, `NetworkMap`, `Recovery`, `Orchestrator` | `internal/migrate/orchestrator.go`, `internal/migrate/rollback.go`, `internal/migrate/plan.go`, `internal/migrate/netmap.go` |
| warm replication | `DiskBlocks`, `Replication` | `internal/migrate/replication.go` |
| connector circuit breaker | `CircuitBreaker` | `internal/api/circuit_breaker.go` |
| request limiter | `RateLimiter` | `internal/api/observability.go` |
| dashboard sessions | `Sessions` | `internal/api/auth_session.go`, `internal/store/memory.go` |
| credential registry | `Credentials`, `TenantStore` | `internal/store/credentials.go`, `internal/store/auth_lookup.go`, `internal/store/postgres.go` |

`Text`, `Collections`, `Sorting` and `MigrationTypes` hold shared definitions.

## How things are modelled

- The planner is written with the loops of the source: in-degrees and reverse edges count duplicate dependencies,
  `sort.Slice` is some permutation in name order, map iteration is an arbitrary choice. Its reference is an independent
  one: chains, cycles and order-respecting schedules of a graph.
- The executor is a state machine. Each Go `select` is a choice among enabled steps, each unbuffered channel operation
  one joint step of sender and receiver. A run is any sequence of enabled steps: callers, timeouts, cancellation,
  shutdown, dispatcher and workers interleave freely. Admission, hand-over and ends of jobs are recorded as history.
  A caller's wait context ends by its deadline, with the caller's own context, or when the call returns; which came first
  decides the error, as in the source. A caller's own deadline counts as either.
- The orchestrator is a class whose connector and store outcomes are arbitrary. A failed save may or may not have
  taken effect. The five phase loops have one shape, so they are one loop over a method per phase and workload. What
  a run does is an event sequence in which every save, snapshot, network mapping and connector call has its own kind
  and says whether it succeeded; an automaton says which sequences are acceptable, and the lemmas of `RunTrace` spell
  out what acceptance means. Every state that reaches the store is logged.
- Replication works on byte sequences. Reads may be short, and any read, write or save may fail, a write possibly
  halfway.
- Circuit breaker, limiter, sessions and registry each carry the full history beside the small pruned state of the
  source. Clocks do not run backwards; the calls that read the clock take the time as a parameter.
- Lower-casing, SHA-256, regular expressions and globs are function parameters: results hold for all of them.

## What does not hold, and exactly when

- Wave building needs distinct workload keys: with a repeated key the planner reports a dependency cycle even when there is
  none (`WavePlanner.BuildDependencyAwareWaves`: success if and only if keys are distinct and the graph is acyclic).
- Reordering by plan keeps all workloads if and only if their keys are distinct (`ExecutionPlan.EndToEnd`). Keys collide only
  if some VM identifier is non-empty and all blank (`ExecutionPlan.BlankIdsAloneCollide`); `ExecutionPlan.BlankIdLosesWorkload` is an example.
- Rolling back a completed migration addresses all of it if and only if its recovery point lists as many sources as there are
  workloads (`Recovery.AddressedExactly`, `Orchestrator.Migration.Rollback`). That is so after every Execute and Resume
  that completes past the gate (`Orchestrator.Migration.CompleteThenUndo`). It is not when a migration went through
  all phases with no workloads and a later Resume, with nothing left to do, adopts VMs that match by then
  (`Orchestrator.LateMatchUncovered`); no other call can bring this about (`Orchestrator.Migration.Resume`).
- A repeated synchronisation finds nothing to do if and only if the target was not longer than the source or the source is a whole
  number of blocks (`Replication.RepeatSyncClean`).
- The limiter opens a new window whenever the effective limit of a key changes, so requests with changing limits are never
  refused (`RateLimiter.ChangingLimitAdmitsAll`). With a constant limit the bounds hold; with changing ones each change in an
  interval of the window's length costs at most one more largest limit (`RateLimiter.ChangingRateBound`).
- A session revoked in the store is still returned if and only if it is held here unmarked when the lookup starts and expires
  between that moment and the moment the store is asked (`Sessions.AuthSessionManager.LookupActive`,
  `Sessions.RevokedYetReturned`).
- The registry lookup equals the scan for every hash if and only if every usable account has a trimmed, non-blank ID that no earlier
  active account of its tenant has (`Credentials.AgreeIffAddressable`); `TenantStore.BlankAccountMissed` is an example.

## Model

| member | source | states |
|---|---|---|
| `DependencyGraph.InDegreeZero` | internal/migrate/plan.go:155-174 | A key's in-degree, counted with multiplicity over unfinished dependencies, is zero exactly when all its dependencies are finished. |
| `DependencyGraph.InDegreeAfter` | internal/migrate/plan.go:203-211 | Finishing one key lowers every in-degree by exactly that key's number of occurrences in the reverse edges. |
| `DependencyGraph.StuckMeansCyclic` | internal/migrate/plan.go:221-223 | If keys are left but none is ready, the graph has a cycle. |
| `DependencyGraph.WalkToCycle` | internal/migrate/plan.go:221-223 | Walking backwards from a stuck key always closes a cycle. |
| `GreedySchedule.GreedyIsValid` | internal/migrate/plan.go:182-219 | A complete greedy schedule puts every key in one round and every dependency in a strictly earlier one. |
| `GreedySchedule.ScheduledMeansAcyclic` | internal/migrate/plan.go:182-223 | A graph that can be scheduled completely has no cycle. |
| `GreedySchedule.RoundShape` | internal/migrate/plan.go:182-189 | A round is non-empty, repeats nothing, and is short of the wave size only if it took every ready key. |
| `GreedySchedule.RoundsDisjoint` | internal/migrate/plan.go:182-219 | No key is in two rounds. |
| `GreedySchedule.LongChain` | internal/migrate/plan.go:182-219 | Behind every key there is a dependency chain longer than the number of earlier rounds that took all ready keys. |
| `GreedySchedule.RoundIsLongestChain` | internal/migrate/plan.go:182-219 | With unbounded waves a key's round number is the length of its longest dependency chain. |
| `GreedySchedule.FewestRounds` | internal/migrate/plan.go:182-219 | With unbounded waves no order-respecting schedule has fewer rounds. |
| `GreedySchedule.WithinTwiceOptimal` | internal/migrate/plan.go:182-219 | With waves of a given size the plan has at most twice as many waves as any order-respecting schedule with waves of that size. |
| `WavePlanner.IndexWorkloads` | internal/migrate/plan.go:143-153 | The two maps built by the loop are the node map and the name index, whose meaning is the next row. |
| `WavePlanner.NameIndexMeans` | internal/migrate/plan.go:148-153 | A text is in the index exactly when it is the lower-cased identifier or name of some workload, and it leads to the last such workload. |
| `WavePlanner.FaultFreeMeans` | internal/migrate/plan.go:155-163 | No fault is found exactly when every dependency names some workload other than its own. |
| `WavePlanner.FaultMeans` | internal/migrate/plan.go:155-163 | A dependency is reported unknown exactly when no workload has it as lower-cased identifier or name, and as a self-dependency exactly when the last workload that has it is its own. |
| `WavePlanner.FaultFreeByName` | internal/migrate/plan.go:148-163 | When no text names two workloads, nothing is reported exactly when every dependency, trimmed and lower-cased, is the identifier or name of another workload; and keys are distinct. |
| `WavePlanner.EdgesOfMembers` | internal/migrate/plan.go:155-166 | The edges are exactly the resolved pairs of dependency and workload. |
| `WavePlanner.Link` | internal/migrate/plan.go:155-167 | Linking reports the first fault in list order, or yields in-degrees and reverse edges that agree with the resolved graph, duplicates included. |
| `WavePlanner.InitiallyAvailable` | internal/migrate/plan.go:169-174 | The keys without dependencies, each once, in whatever order the map yields them. |
| `WavePlanner.Start` | internal/migrate/plan.go:169-177 | The loop starts with exactly the ready keys, in name order. |
| `WavePlanner.LowerAll` | internal/migrate/plan.go:205-210 | Lowering reports each key that reaches zero exactly once, although dependents may repeat. |
| `WavePlanner.Advance` | internal/migrate/plan.go:203-218 | After a wave, in-degrees are exact and the available keys are all ready ones in name order. |
| `WavePlanner.WaveStep` | internal/migrate/plan.go:182-202 | Taking the next wave keeps the schedule greedy, counts its keys and makes progress. |
| `WavePlanner.PlanWaves` | internal/migrate/plan.go:179-219 | The loop terminates with consecutively numbered waves that form a greedy schedule, and nothing is ready any more. |
| `WavePlanner.BuildDependencyAwareWaves` | internal/migrate/plan.go:142-226 | The first faulty dependency is reported; otherwise planning succeeds exactly when keys are distinct and the graph is acyclic, and fails as a cycle. When no text names two workloads and every dependency is the identifier or name of another, no dependency is reported as faulty. |
| `WavePlanner.ProcessedAllMeansSound` | internal/migrate/plan.go:221-223 | The count of processed keys equals the workload count exactly when keys are distinct and the graph has no cycle. |
| `WavePlanTheorems.PlanCoversOnce` | internal/migrate/plan.go:182-219 | Every workload is in exactly one wave; waves are non-empty and no larger than the wave size. |
| `WavePlanTheorems.DependenciesEarlier` | internal/migrate/plan.go:155-219 | Every dependency of a planned workload is, trimmed and lower-cased, the identifier or name of a workload in a strictly earlier wave: the last workload it names. |
| `WavePlanTheorems.WavesInNameOrder` | internal/migrate/plan.go:175-218 | Within a wave the workloads come in the order of their lower-cased names. |
| `Matcher.MatchWorkloads` | internal/migrate/matcher.go:12-34 | The loop selects the first VM of each key that some selector matches. |
| `Matcher.MatchesAnySelector` | internal/migrate/matcher.go:36-44 | The loop answers whether some selector matches: no exclusion, and name, tags, folder and power state as far as they are given. |
| `Matcher.SelectedMeans` | internal/migrate/matcher.go:12-44 | The selection has no repeated key, only matching VMs, and one VM for the key of every matching VM. |
| `Matcher.SelectedAreFirsts` | internal/migrate/matcher.go:12-34 | The selection is, in inventory order, exactly the VMs that match and whose key no earlier matching VM has. |
| `Matcher.MergedOverrides` | internal/migrate/matcher.go:113-155 | Host and storage are those of the last matching selector that gives one, or empty; a network or storage key is mapped exactly if some matching selector maps it, to what the last of them says. |
| `Matcher.MergedMeans` | internal/migrate/matcher.go:131-143 | The same of the merged overrides that plans and phases are stated with. |
| `Matcher.MergedDependencies` | internal/migrate/matcher.go:144-151 | The merged dependencies are the non-empty ones of all matching selectors, without repetition. |
| `Matcher.BuildWorkloadMigrations` | internal/migrate/matcher.go:84-111 | One fresh workload per selected VM, in order, with the network map in which later matching selectors win key by key. |
| `Keyed.RearrangedPermutes` | internal/migrate/plan.go:342-375 | Reordering by a list of all keys keeps the workloads exactly when keys are distinct; otherwise one per key is left. |
| `PlanOrder.GreedyOrder` | internal/migrate/plan.go:342-365 | Read wave after wave, the keys of a plan come each once and after all their dependencies. |
| `PlanOrder.PlaceWave` | internal/migrate/plan.go:355-365 | One wave's workloads are placed in plan order, none twice. |
| `PlanOrder.ReorderWorkloadsByPlan` | internal/migrate/plan.go:342-375 | The loops produce the plan's order followed by what the plan does not name. |
| `ExecutionPlan.ChunkWorkloads` | internal/migrate/plan.go:228-243 | Batches concatenate to the input, are non-empty and within the wave size, and all but the last have exactly that size. |
| `ExecutionPlan.BatchKeys` | internal/migrate/plan.go:118-132 | Plain batches keep the order of the sorted workloads. |
| `ExecutionPlan.CollectWorkloads` | internal/migrate/plan.go:71-95 | One planned workload per selected VM: its identifier or name as key, the dependencies its matching selectors list, the host and storage of the last matching selector that gives one or else the defaults, and the merged network map. |
| `ExecutionPlan.PlannedMeans` | internal/migrate/plan.go:71-95 | The same of the planned workload that all planning results are stated with. |
| `ExecutionPlan.BuildWaves` | internal/migrate/plan.go:118-139 | Failure exactly when dependency-aware and not plannable, with its reason; otherwise a wave plan, or consecutive numbered batches of the name-sorted workloads, full but for the last. |
| `ExecutionPlan.EffectiveStrategy` | internal/migrate/plan.go:106-113 | Planning is dependency-aware if asked for or if any workload has a dependency. |
| `ExecutionPlan.BuildExecutionPlan` | internal/migrate/plan.go:66-140 | Planning fails exactly when the strategy is dependency-aware and the workloads are not plannable; a plan carries the settings and totals of the selected VMs, and waves or numbered full batches of all of them. |
| `ExecutionPlan.PlanKeysRespect` | internal/migrate/plan.go:106-139 | A plan names every workload, and its order respects the dependency graph even if dependency awareness was not requested. |
| `ExecutionPlan.EndToEnd` | internal/migrate/orchestrator.go:168-174 | The list the phases iterate over is a permutation of the selected workloads exactly when their keys are distinct, each after all its dependencies. |
| `ExecutionPlan.RosterPermutes` | internal/migrate/orchestrator.go:168-174 | The same in terms of VMs: the VMs of the ordered workloads are the selected ones exactly when keys are distinct. |
| `ExecutionPlan.RosterOfPlan` | internal/migrate/orchestrator.go:168-174 | Every plan that was built for a selection orders it respecting the dependency graph. |
| `ExecutionPlan.PlanMigration` | internal/migrate/orchestrator.go:160-177 | From discovered VMs to ordered workloads: nothing matched exactly when no VM is selected, rejected exactly when the selection is not plannable, and otherwise a dependency-respecting list that is a permutation of the selected VMs exactly when their keys are distinct. |
| `ExecutionPlan.BlankIdsAloneCollide` | internal/migrate/plan.go:377-382 | Keys are distinct unless a selected VM has a non-empty identifier of blanks. |
| `ExecutionPlan.BlankIdLosesWorkload` | internal/migrate/matcher.go:21-24 | Two selected VMs, one with the identifier " ", that share a workload key. |
| `TenantDepths.MatchesAppend` | internal/api/workspace_executor.go:410-425 | Raising a tenant's depth keeps the map equal to the counts when a job joins the queue. |
| `TenantDepths.MatchesPop` | internal/api/workspace_executor.go:410-438 | Lowering it keeps the map equal to the counts, without zero entries, when the oldest job leaves. |
| `TenantDepths.MatchesUnappend` | internal/api/workspace_executor.go:259-264 | The same when the newest job is taken back. |
| `TenantDepths.TenantQueueDepths.AdjustTenantQueueDepth` | internal/api/workspace_executor.go:410-425 | Keeps the map equal to the queue's counts per non-blank tenant, without zero entries, for any change of the queue by that many jobs of the tenant. |
| `TenantDepths.TenantQueueDepths.Join` | internal/api/workspace_executor.go:256-258 | A job joins the queue and the map counts it. |
| `TenantDepths.TenantQueueDepths.RemoveOldest` | internal/api/workspace_executor.go:433-438 | The oldest job leaves the queue and the map counts the rest. |
| `TenantDepths.TenantQueueDepths.TenantQueueLimitExceeded` | internal/api/workspace_executor.go:394-408 | Exceeded exactly when one more job of the tenant would take it past half the queue, and past one place. |
| `ExecutorTheorems.StepKeeps` | internal/api/workspace_executor.go:103-375 | Every step of callers, dispatcher and workers keeps the invariant. |
| `ExecutorTheorems.RunKeeps` | internal/api/workspace_executor.go:72-375 | Every state of every run satisfies it. |
| `ExecutorTheorems.AnswerDecides` | internal/api/workspace_executor.go:103-145 | A nil answer means the dispatcher keeps the request from then on; a request answered with an error is at no time kept, handed over or run; "not accepting" is never answered. |
| `ExecutorTheorems.KeptWasAnswered` | internal/api/workspace_executor.go:256-269 | The dispatcher keeps a request exactly when its caller has been answered nil. |
| `ExecutorTheorems.FirstInFirstOut` | internal/api/workspace_executor.go:178-190 | What workers were given is a prefix of the admission order; no job is given twice, is with two workers, or starts twice. |
| `ExecutorTheorems.ReleasedOnce` | internal/api/workspaces.go:568-609 | No release action runs twice; that of a kept job has run exactly when the job has finished or was rejected at shutdown. |
| `ExecutorTheorems.QuietMeansReleased` | internal/api/workspaces.go:568-609 | Once dispatcher and workers have stopped and callers have returned, the release action of every submitted job has run exactly once. |
| `ExecutorTheorems.LoopHead` | internal/api/workspace_executor.go:166-271 | At the dispatcher's loop head there are as many workers as configured, or four; depths equal the counts per tenant, the queue holds at most two requests per worker and at most one per worker of any tenant, and no queued entry has a live result channel. |
| `ExecutorAnswers.ErrorsHaveReasons` | internal/api/workspace_executor.go:103-145 | In every run a caller is refused only for a reason that held at some moment: the queue held as many requests of its non-blank tenant as there are workers when the request was looked at; the server had been stopped; or, while it had no answer, its wait had reached the deadline or its context had been cancelled. |
| `ExecutorAnswers.TakenIsAdmitted` | internal/api/workspace_executor.go:200-269 | In every run a request taken while its tenant is below its share stays with the dispatcher until it is answered nil, whatever callers and workers do, unless the server stops or its own wait ends. |
| `ExecutorAnswers.OfferIsAdmitted` | internal/api/workspace_executor.go:192-269 | From every reachable state at the main select, with the server running, room in the queue, the tenant below its share and the wait going on, the dispatcher's steps are enabled one after the other from taking the offer to the confirmation, and the caller is answered nil. |
| `ExecutorAnswers.AcceptedIsServed` | internal/api/workspace_executor.go:271-375 | Until shutdown an accepted job is queued, being handed over, with a worker, or has been run to its end: none is dropped or skipped. |
| `ExecutorAnswers.NoWorkerLeftIdle` | internal/api/workspace_executor.go:169-198 | Until shutdown no worker waits for a task while the dispatcher is at its main select with requests queued. |
| `ExecutorShutdown.DispatcherNeverBlocked` | internal/api/workspace_executor.go:456-471 | The dispatcher waits only at its main select or for room in a full queue, never for a caller or a worker. |
| `ExecutorShutdown.NeverStuck` | internal/api/workspace_executor.go:192-375 | After shutdown, some step is enabled until everything has stopped. |
| `ExecutorShutdown.ShutdownIsBounded` | internal/api/workspace_executor.go:192-375 | After shutdown the steps taken are bounded by the state at shutdown plus twenty for each later call. |
| `ExecutorShutdown.RestMeansReleased` | internal/api/workspace_executor.go:297-375 | A run that cannot go on after shutdown has stopped everything and released every submitted job exactly once. |
| `Checkpoints.UpdateCheckpoint` | internal/migrate/plan.go:313-329 | The loop marks the phase's checkpoint, or appends one. |
| `Checkpoints.MarkReads` | internal/migrate/plan.go:257-329 | Marking a phase changes what is read for that phase and for no other. |
| `Checkpoints.NextPhaseStartIndex` | internal/migrate/plan.go:301-311 | The first phase that is not completed, or -1 when all are. |
| `Checkpoints.MarkPrefix` | internal/migrate/plan.go:257-290 | Completing the next phase lengthens the completed prefix; failing a phase keeps it or cuts it there. |
| `Checkpoints.FailedIsGood` | internal/migrate/orchestrator.go:611-623 | Failing the current phase, or one without a checkpoint of its own, keeps the completed phases a prefix. |
| `Checkpoints.GoodPrefix` | internal/migrate/plan.go:292-311 | A completed phase implies that all earlier ones are completed. |
| `Checkpoints.CompleteMeansAll` | internal/migrate/orchestrator.go:322-331 | Phase complete implies that all five phases are completed. |
| `RunTrace.GateComesFirst` | internal/migrate/orchestrator.go:185-202 | No snapshot, recovery point, phase or effect comes before the approval and window gate has passed. |
| `RunTrace.BegunMeansGate` | internal/migrate/orchestrator.go:185-202 | A run has got past the gate exactly when the gate event is in it. |
| `RunTrace.SeenIsObserved` | internal/migrate/orchestrator.go:276-335 | What the orchestrator's contracts say of a run as it grows is what the automaton says of its events. |
| `RunTrace.PhasesAreConsecutive` | internal/migrate/orchestrator.go:276-316 | The phases of a run are one contiguous ordered block from its start phase. |
| `RunTrace.EffectInCurrentPhase` | internal/migrate/orchestrator.go:291-316 | Every effect belongs to the phase begun last. |
| `RunTrace.CompletedPhasesSpared` | internal/migrate/orchestrator.go:251-274 | No run touches a phase completed in the state it loaded. |
| `RunTrace.FailureStops` | internal/migrate/orchestrator.go:291-335 | A run stops at its first failure, be it a save, a recovery point, a snapshot, an effect or a network mapping: at most the saving of the failed state follows, and nothing after a failed save. |
| `RunTrace.PointIsCurrent` | internal/migrate/orchestrator.go:304-309 | When a phase begins, the recovery point saved last lists exactly the targets and converted files then recorded and each source's planning-time power state. |
| `Effects.PhaseEffectsSame` | internal/migrate/orchestrator.go:427-602 | A phase does not change what it or an earlier phase was to do. |
| `Effects.RunEffectsSame` | internal/migrate/orchestrator.go:276-320 | So the effects of the phases up to it can be read off the final record. |
| `Effects.DeedsAreEvents` | internal/migrate/orchestrator.go:427-602 | The effects of a run are exactly the effects among its events. |
| `Effects.RunDoneExactly` | internal/migrate/orchestrator.go:427-602 | The effects of all phases from a start phase on are exactly the calls due for some workload: a running source is powered off when asked for, disks are exported, every source file is converted, the target is created from the converted files, its networks configured, and it is powered on and checked when verification is on, each in its phase and where the connector can. |
| `NetworkMap.MapAllNics` | internal/migrate/netmap.go:31-65 | Mapping fails exactly when some interface's network is unmapped or mapped to a network the target does not have; otherwise each interface gets the first target network of that name, in order. |
| `Recovery.CoveredExactly` | internal/migrate/rollback.go:61-103 | The recovery point of a completed state lists what the state records exactly when it lists as many sources as there are workloads. |
| `Recovery.CapturedIsAddressed` | internal/migrate/rollback.go:105-158 | Rolling back to a point that lists what is recorded removes every workload's target VM, deletes each of its converted files and restores its source's power state. |
| `Recovery.CapturedIsConfined` | internal/migrate/rollback.go:105-158 | Such a rollback touches nothing but the targets, files and sources of the workloads. |
| `Recovery.OffThenRemoved` | internal/migrate/rollback.go:122-137 | Where the target connector controls power, every target is powered off, before it is removed. |
| `Recovery.AddressedExactly` | internal/migrate/rollback.go:105-158 | Rolling back a completed state addresses all of it exactly when its point lists as many sources as there are workloads, and never touches anything else. |
| `Orchestrator.LateMatchUncovered` | internal/migrate/orchestrator.go:244-270 | Resuming a migration that was completed without workloads, with a VM that matches by now, saves it as complete with a workload that no recovery point lists. |
| `Orchestrator.Migration.SaveState` | internal/migrate/runtime.go:47-72 | Every state that reaches the store is logged, also when the caller is told it failed; a reported failure ends the run. |
| `Orchestrator.Migration.SavePoint` | internal/migrate/runtime.go:92-114 | A point reported as saved is the one on record; a reported failure halts the run. |
| `Orchestrator.Migration.CreateRecoveryPoint` | internal/migrate/rollback.go:61-103 | A saved point captures exactly what the workloads record; a failed snapshot or save halts the run. |
| `Orchestrator.Migration.ExportWorkload` | internal/migrate/orchestrator.go:427-460 | Success means the source was powered off if that was due and possible, then exported, in this order; only source paths and the error change. |
| `Orchestrator.Migration.ConvertWorkload` | internal/migrate/orchestrator.go:462-500 | Success means one conversion and one recorded file per source file, in order; only converted paths and the error change. |
| `Orchestrator.Migration.ImportWorkload` | internal/migrate/orchestrator.go:502-536 | Success means the target was created from the converted disks on the host and storage that the last matching selector with one names, or else the defaults; or the derived target name where the connector cannot import; only the target and the error change. |
| `Orchestrator.Migration.ConfigureWorkload` | internal/migrate/orchestrator.go:538-566 | Fails at once exactly when the interfaces cannot all be mapped; success means the target was configured with the mapped networks where the connector can; only the error changes. |
| `Orchestrator.Migration.VerifyWorkload` | internal/migrate/orchestrator.go:568-602 | With boot verification, success means the target was powered on, then checked, where the connector can; only the error changes. |
| `Orchestrator.Migration.RunPhase` | internal/migrate/orchestrator.go:427-602 | A successful phase has done exactly what is due for every workload, in order, and recorded it; a failing one stops there; either way nothing else in the record changes. |
| `Orchestrator.Migration.FailState` | internal/migrate/orchestrator.go:611-623 | A failure is marked and saved if the store lets it; the state stays good, its workloads as they are, and the run is over. |
| `Orchestrator.Migration.SetPhase` | internal/migrate/orchestrator.go:604-609 | The phase is marked running and saved; a failed save ends the run. |
| `Orchestrator.Migration.BeginPhase` | internal/migrate/orchestrator.go:298-307 | A phase begins only after its state was saved and a recovery point that captures the workloads; any failure ends the run. |
| `Orchestrator.Migration.EndPhase` | internal/migrate/orchestrator.go:313-318 | A completed phase lengthens the completed prefix by one and is saved; a failed save ends the run. |
| `Orchestrator.Migration.RunOnePhase` | internal/migrate/orchestrator.go:291-316 | A phase goes on to the next exactly when its save, its point, its effects and its closing save succeeded; then it has done exactly its effects and lengthened the completed prefix. |
| `Orchestrator.Migration.RunExecution` | internal/migrate/orchestrator.go:276-335 | Success persists a complete state whose recovery point captures it, and means that the effects were exactly those due for every workload in every phase from the start on; any failure has ended the run, and every state persisted on the way is good and logged. |
| `Orchestrator.Migration.Execute` | internal/migrate/orchestrator.go:150-204 | Every outcome keeps persisted states good and the events accepted. A dry run, or a run before the window opens, after it closes or without a required approval, has no effect at all; any other run with a plan gets past the gate unless saving the plan failed; there is a plan exactly when discovery succeeded, some VM matched and the selection is plannable. The list the phases work on is the planned one, dependencies first; success of a real run means every call due in all five phases for every workload of the saved state, no other, and a recovery point that captures it. |
| `Orchestrator.Migration.MakePlan` | internal/migrate/orchestrator.go:163-178 | A plan is made exactly when discovery succeeded, some VM matched and the selection is plannable; it yields a non-empty, dependency-respecting list that is a permutation of the selected VMs exactly when their keys are distinct. |
| `Orchestrator.Migration.Resume` | internal/migrate/orchestrator.go:206-274 | The run starts at the first phase not completed in the loaded state and works on the workloads on record or, if there are none, on those discovery matches in plan order; finished and rolled-back migrations are left alone. Outside the window or without a required approval it has no effect; otherwise a loaded, unfinished migration with a plan gets past the gate. Success means a complete state and, past the gate, exactly the calls due in the remaining phases and a recovery point that captures it; only adoption into a state completed without workloads escapes the point. |
| `Orchestrator.Migration.Adopt` | internal/migrate/orchestrator.go:244-250 | Exactly which workloads a resumed migration works on, and when that is an adoption no recovery point covers. |
| `Orchestrator.Migration.Conclude` | internal/migrate/orchestrator.go:261-271 | With nothing left to do the state is saved as complete with the workloads it has; the only error is a failed save. |
| `Orchestrator.Migration.Rollback` | internal/migrate/rollback.go:105-181 | Every action of the recovery point is attempted, targets being powered off before they are removed; an error-free rollback removes and restores all of them and marks the state rolled back; of a completed migration it touches nothing else, and addresses every target VM, converted file and source VM exactly when the point lists as many sources as workloads, and always unless workloads were adopted late. |
| `Orchestrator.Migration.Drive` | internal/migrate/orchestrator.go:150-335 | Any sequence of Execute, Resume and Rollback keeps every state ever persisted good, and the one on record covered. |
| `Orchestrator.Migration.CompleteThenUndo` | internal/migrate/orchestrator.go:150-335 | Whatever went before: a completed Execute or Resume followed by an error-free rollback, on connectors that can remove targets and control power, has removed every target VM, after powering it off where possible, deleted every converted file and restored every source VM of the migration, and touched nothing else. |
| `Replication.CopyThenSync` | internal/migrate/replication.go:176-375 | A completed copy and a completed sync make the target equal the source, whatever it held. |
| `Replication.InterruptedCopiesFinish` | internal/migrate/replication.go:176-258 | From an empty target, any number of interrupted copies and then a completed one suffice. |
| `Replication.OverlayKeepsEqualBlock` | internal/migrate/replication.go:348-357 | Writing source bytes never makes an equal block unequal. |
| `Replication.InterruptedSyncNeverWorse` | internal/migrate/replication.go:318-374 | An interrupted sync never increases the number of differing blocks. |
| `Replication.RepeatSyncClean` | internal/migrate/replication.go:318-374 | A second sync finds no differing block exactly when the target was not longer than the source or the source is a whole number of blocks. |
| `Replication.Replicator.StartInitialCopy` | internal/migrate/replication.go:176-258 | A finished copy has copied everything; an interrupted one has copied some further prefix, whatever failed. |
| `Replication.Replicator.SyncBlock` | internal/migrate/replication.go:331-360 | One block: equal blocks are left, others rewritten and counted, and a failing write leaves part of the block. |
| `Replication.Replicator.RunSync` | internal/migrate/replication.go:288-375 | A completed sync equals the source on its length, keeps later bytes, and reports exactly the differing blocks and their bytes; an interrupted one has done a prefix of that. |
| `Replication.Replicator.CopyAndCutOver` | internal/migrate/replication.go:261-286 | Copies retried until one finishes, then the final sync: success means equal disks. |
| `DiskBlocks.DirtyMapAt` | internal/migrate/replication.go:321-353 | Flag i is set exactly when block i differs. |
| `DiskBlocks.CeilingDivision` | internal/migrate/replication.go:491-496 | The number of blocks is the size divided by the block size, rounded up. |
| `DiskBlocks.BlocksCover` | internal/migrate/replication.go:491-496 | The blocks cover the disk and the last one is not empty. |
| `CircuitBreaker.PruneFailures` | internal/api/circuit_breaker.go:250-262 | The loop keeps exactly the failures after the cutoff, in order. |
| `CircuitBreaker.AfterAgain` | internal/api/circuit_breaker.go:250-262 | Pruning a pruned list at a later time gives what pruning the whole history gives. |
| `CircuitBreaker.ClosedSince` | internal/api/circuit_breaker.go:136-183 | A success after an unexpired opening means that a call started before the opening has succeeded since. |
| `CircuitBreaker.StartKeepsOpenings` | internal/api/circuit_breaker.go:136-165 | Letting a call through keeps: none starts before an opening has run out unless an earlier-started call's success closed the circuit. |
| `CircuitBreaker.AllowKeeps` | internal/api/circuit_breaker.go:136-165 | Letting a call through or refusing it keeps the pruned state in agreement with the full history. |
| `CircuitBreaker.SuccessKeeps` | internal/api/circuit_breaker.go:167-183 | So does a success. |
| `CircuitBreaker.FailureKeeps` | internal/api/circuit_breaker.go:185-203 | So does a failure; it opens the circuit exactly on a failed probe or when the recent failures of the full history reach the threshold. |
| `CircuitBreaker.ConnectorCircuit.Allow` | internal/api/circuit_breaker.go:136-165 | A call is refused exactly when the circuit is open and its time has not come; a call on a circuit that is not closed is a probe. |
| `CircuitBreaker.ConnectorCircuit.RecordSuccess` | internal/api/circuit_breaker.go:167-183 | A success closes the circuit and forgets its failures. |
| `CircuitBreaker.ConnectorCircuit.RecordFailure` | internal/api/circuit_breaker.go:185-203 | State, opening time and history after a failure, in terms of the full history; a closed circuit stays below the threshold. |
| `CircuitBreaker.ConnectorCircuit.Snapshot` | internal/api/circuit_breaker.go:205-234 | The reported count is that of the full history's failures since the last success within the window. |
| `CircuitBreaker.GuardedConnector.FinishConnect` | internal/api/circuit_breaker.go:326-342 | A probe's connection alone does not close the circuit; a failure while half-open reopens it. |
| `CircuitBreaker.GuardedConnector.FinishDiscover` | internal/api/circuit_breaker.go:344-360 | A successful discovery closes the circuit and ends probing. |
| `RateLimiter.Limited` | internal/api/observability.go:177-206 | For a key whose requests all come with one limit, a positive override or else the configured one, the bucket agrees with all admissions so far, whatever other keys do. |
| `RateLimiter.RateBound` | internal/api/observability.go:177-206 | At most the limit in the current fixed window, at most twice the limit in any interval of the window's length. |
| `RateLimiter.RefusedMeansFull` | internal/api/observability.go:190-200 | A request is refused only if the last window's length already holds the limit. |
| `RateLimiter.ChangedLimitAdmits` | internal/api/observability.go:190-193 | A request under another limit than the one before is always admitted. |
| `RateLimiter.ChangingLimitAdmitsAll` | internal/api/observability.go:190-193 | Any number of requests with positive overrides, each other than the one before, is admitted at one time. |
| `RateLimiter.ChangingRateBound` | internal/api/observability.go:177-206 | Whatever the limits, an interval of the window's length holds at most (limit changes in it + 2) times the largest limit. |
| `RateLimiter.TenantRateLimiter.Allow` | internal/api/observability.go:177-206 | One request advances the run; a refused caller that waits as told would be admitted. |
| `Sessions.RevocationStore.RevokeAuthSession` | internal/store/memory.go:642-663 | A revocation is recorded unless the call is cancelled or the ID or expiry is missing. |
| `Sessions.RevocationStore.IsAuthSessionRevoked` | internal/store/memory.go:665-690 | Exactly the sessions ever revoked and not expired count as revoked, although records are pruned. |
| `Sessions.AuthSessionManager.Prune` | internal/api/auth_session.go:273-284 | Pruning keeps exactly the unexpired marks and the unexpired, unmarked sessions; from then on every lookup finds what it would have found without it. |
| `Sessions.AuthSessionManager.CreateRecord` | internal/api/auth_session.go:94-121 | Only a session that has not expired is created; unless its new ID is already marked it is found until it expires, and every other session is found exactly when it would have been found before. |
| `Sessions.AuthSessionManager.Lookup` | internal/api/auth_session.go:123-144 | Exactly the held, unexpired and unmarked session is found; anything else is dropped. |
| `Sessions.AuthSessionManager.LookupByPublicId` | internal/api/auth_session.go:183-207 | The live session with the public ID is found if there is one. |
| `Sessions.AuthSessionManager.MarkRevoked` | internal/api/auth_session.go:286-326 | The session is gone and stays marked until it expires. |
| `Sessions.AuthSessionManager.Revoke` | internal/api/auth_session.go:296-318 | Success means recorded in the store, marked and dropped; a failed audit leaves it recorded only. |
| `Sessions.AuthSessionManager.Interfere` | internal/api/auth_session.go:94-343 | Whatever others do, dropped sessions do not come back and revocations in the store stay recorded. |
| `Sessions.AuthSessionManager.LookupActive` | internal/api/auth_session.go:146-171 | With others acting between its sections: a returned session was unexpired at the start, and if revoked in the store before the start it had expired when the store was asked; undisturbed, that is exactly when it is returned. |
| `Sessions.RevokedYetReturned` | internal/api/auth_session.go:146-171 | Every session that expires between the two moments and was revoked in the store only is returned. |
| `Credentials.ValidateWithin` | internal/store/credentials.go:187-207 | Accepts exactly the tenants without two equal non-blank hashes. |
| `Credentials.ValidateUniqueness` | internal/store/credentials.go:152-185 | Accepts exactly the tenants that share no non-blank hash within themselves or with another tenant. |
| `Credentials.StoredIsUnique` | internal/store/credentials.go:168-185 | Storing an accepted tenant keeps hashes globally unique. |
| `Credentials.NextRowIsNew` | internal/store/postgres.go:1829-1853 | The unique index of the registry never refuses a row of an accepted tenant. |
| `Credentials.FullyIndexed` | internal/store/postgres.go:1819-1853 | After all rows are in, the registry holds exactly the credentials of all tenants. |
| `Credentials.DeletedIsIndexed` | internal/store/postgres.go:1047-1087 | So it does after a tenant and its rows are deleted. |
| `Credentials.ScanFindsHolder` | internal/store/auth_lookup.go:54-79 | The scan's answer is that of the one tenant that holds the hash. |
| `Credentials.ScanRight` | internal/store/auth_lookup.go:53-79 | The scan names an active tenant that has the hash itself, or the first account with the ID of an active, unexpired account of an active tenant that has it; it names nobody only if no active tenant has either. |
| `Credentials.RegistryRight` | internal/store/auth_lookup.go:105-150 | Whoever the registry names is right in the same sense, without any condition on account IDs. |
| `Credentials.PreparedIsFound` | internal/store/credentials.go:117-138 | Every credential given for a tenant, as a key or as a hash, leads the scan to that tenant or to an account with the right ID while it is active. |
| `Credentials.AtAccount` | internal/store/auth_lookup.go:122-150 | At an account's hash scan and registry differ exactly if the account is usable and the registry cannot name it. |
| `Credentials.AgreeIffAddressable` | internal/store/auth_lookup.go:37-153 | Scan and registry agree on every hash exactly if every usable account has a trimmed, non-blank ID that no earlier active account has. |
| `Credentials.ProperIdsAgree` | internal/store/auth_lookup.go:37-153 | With unique, trimmed, non-blank account IDs they agree on every hash at every time. |
| `TenantStore.CredentialStore.ReplaceRows` | internal/store/postgres.go:1819-1890 | The tenant's rows are replaced without a conflict and the registry is exact again. |
| `TenantStore.CredentialStore.CreateTenant` | internal/store/postgres.go:822-888 | Succeeds exactly for a named, new tenant whose hashes are free; otherwise nothing changes. An active tenant created with a key is found under that key's digest, and so is each of its active, unexpired accounts. |
| `TenantStore.CredentialStore.UpdateTenant` | internal/store/postgres.go:891-981 | Succeeds exactly for a named, stored tenant whose hashes are free; the default tenant keeps its name; otherwise nothing changes. An active tenant updated with a key is found under that key's digest, and so is each of its active, unexpired accounts. |
| `TenantStore.CredentialStore.DeleteTenant` | internal/store/postgres.go:1047-1087 | Removes the tenant and its rows, except the default tenant. |
| `TenantStore.CredentialStore.Run` | internal/store/postgres.go:822-1087 | After any sequence of changes the two lookups agree on every hash exactly if all usable accounts can be named. |
| `TenantStore.CredentialStore.LookupByScan` | internal/store/auth_lookup.go:37-79 | An account answer comes from an active tenant with an active, unexpired account of that hash, a tenant answer from an active tenant of that hash, and nobody means that no active tenant has either; the order in which tenants are visited does not matter. |
| `TenantStore.CredentialStore.LookupByRegistry` | internal/store/auth_lookup.go:82-153 | Whoever is named is right as in the scan; whenever usable accounts can be named the answer is the scan's, so nobody means nobody. |
| `TenantStore.UnnamedAccountMissed` | internal/store/auth_lookup.go:122-150 | A usable account with a blank ID, or an earlier active account's ID, is found by the scan and missed by the registry. |
| `TenantStore.BlankAccountMissed` | internal/store/auth_lookup.go:122-150 | A store in which that happens: one tenant whose only account has a blank ID. |

## Left out

- HTTP handlers, middleware, cookies, command line, dashboard, OpenAPI and plugins: plumbing and user interface.
- Connectors, disk conversion and boot verification: foreign calls, represented by arbitrary success or failure and an event.
- SQL text, schema migrations and their one-time seeding, JSON encoding, telemetry and logging: stores are maps with atomic steps, encoding is the identity.
- Cost, currency, policy, drift, recommendations and reports: floating-point figures and folds over an inventory, without state or protocol of their own.
- Warm cutover coordination (`internal/migrate/cutover.go`): mostly connector calls over the same record store.
- Workspace job status under concurrent cancel and run: last writer wins, no terminal-state invariant holds there.
- Bandwidth throttling, progress percentages, timestamps, durations and the wording of errors.
- Concurrent runs on one migration ID: runs of one migration are taken one after the other.
- Concurrent tenant changes: create, update and delete are atomic, so the race between listing tenants and the transaction is not modelled.
- The memory store's tenant operations differ from the modelled ones of the PostgreSQL store in checking existence before uniqueness and in refusing to delete a missing tenant; their scan is modelled.
- The limiter's nil receiver and the zero time as a request time: a request at the zero time would leave its bucket looking unset.
- The circuit registry's map of endpoints: one circuit is modelled; `CheckAvailability` is a call that starts and never reports.
- Pruning loops over maps in the session manager and the store are map comprehensions: their order does not matter.
- The panic recovery inside a job and the job's own context: a job runs and ends.
- DiskBlocks.CeilingDivision: the source divides in floating point, exact only for sizes below 2^53; the model divides exactly.
- Interfaces are reduced to the network they are connected to; MAC and IP addresses only travel along.
- ExecutionPlan.BlankIdsAloneCollide: one direction only, because a blank identifier need not collide with anything; the exact condition is in `ExecutionPlan.EndToEnd`.
- ExecutorShutdown.ShutdownIsBounded: counts steps; that a running job ends at all is the job's business.
