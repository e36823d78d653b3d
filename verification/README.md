# Lattice control plane: verified protocols

lattice-api keeps a fleet of workers, their containers and managed databases in
step with rows in a database. Its hard parts are small concurrent protocols over
those rows. This project models them in Dafny and proves what they promise, for
every input, every interleaving and every reachable state. Each SQL statement is
one atomic step on an abstract table; clocks, hashes, the calendar, the network
and what a worker or an action does are parameters or nondeterministic choices.

| file | what it models |
|---|---|
| `AutomationSteps.dfy` | authorisation, the ordered step loop under a time budget, the length of a whole run |
| `RunTables.dfy` | the automation and run tables, the run guard, the stuck-run sweep, the runner slots |
| `RunProtocol.dfy`, `RunSafety.dfy`, `RunHistories.dfy`, `RunTiming.dfy`, `RunExclusion.dfy` | the life of every firing on every node, with crashes, lost writes, panics, broken leases and sweeps; its invariant; its theorems; how long runs take; for which store the lease is long enough and runs exclude each other |
| `Cron.dfy`, `SlotScheduler.dfy` | the cron evaluator; slots, jitter and claims |
| `SnapshotRuns.dfy` | scheduled snapshot runs: skip on overrun, sweeping, closing |
| `DatabaseLifecycle.dfy`, `DatabaseSync.dfy`, `Deletion.dfy`, `Retention.dfy` | one managed database's row, a worker's full report, staged deletion, snapshot retention |
| `LogBatcher.dfy` | the container-log batcher |
| `RateLimiter.dfy`, `RateBound.dfy` | the token-bucket limiter, and its agreement with a bucket that is never evicted |
| `NameCache.dfy` | the container name cache |
| `Truncate.dfy` | shortening text without splitting a UTF-8 character |
| `Base.dfy` | an optional value, durations, small helpers |

`dafny verify dfyconfig.toml` checks the whole project.

Times are milliseconds (seconds, as reals, in the limiter; minutes for cron
slots). The columns `started_at` and `running_since` keep whole seconds, which
the lease arithmetic takes into account.

## What the code does beside what it says

- The lease outlives every run exactly when no store call takes longer than
  4.866 s. A run may last its 50 s budget, the two look-ups of a redeploy that
  started just inside it (they take no context), one audit's three pauses (the
  last failed attempt pauses too), and ten more store calls, against a stored
  start up to a second early. Two HTTP calls and a redeploy attain it
  (`AutomationSteps.LeaseOutlivesRunsIff`). Runs exclude each other exactly up to
  the same 4.866 s: beyond it a run whose verdict was lost is swept while it holds
  the guard (`RunExclusion.ExclusionIff`). A panic adds one write after the guard
  is dropped; for every live run to be within its lease, calls must then take at
  most 4.492 s (`RunTiming.LeaseSufficesIff`).
- A panic writes the step list built from the initial one, so the row shows every
  step skipped and none started, whatever ran (`RunHistories.PanicForgets`).
- A "running" report moves a row out of `deleting`; so does a restart loop
  (`DatabaseLifecycle.DeletingSurvivesIff`). The restart-loop branch comes before
  the create-failed guard (`DatabaseLifecycle.RunningReportDecides`).
- A staged delete proceeds on the first completed snapshot of the instance, not on
  the final one it asked for (`Deletion.DestroysIffFirst`). It waits for its own
  exactly when nothing was in flight at the request and nothing else starts
  (`Deletion.WaitsForOwnIff`, `Deletion.OtherSnapshotDestroys`).
- The two-copy floor of retention holds against retention itself. An operator's
  delete, or a late report on a finished snapshot, during a pass can still leave
  no copy (`Retention.DisturbedFloorFails`); it does not exactly when enough other
  copies are on no list (`Retention.DisturbanceSparesIff`).
- An in-flight fetch survives `Invalidate` (`NameCache.InvalidateForgetsIff`), and
  concurrent lookups can leave a name live in both tables (`NameCache.BothLive`,
  `NameCache.NeverInBothIff`).
- `n/step` with n above the field's maximum validates and never matches
  (`Cron.SteppedPastMaxNeverMatches`, `Cron.ValidatedFieldCanFireIff`).
- A slot is jittered by the gap before it and lost if the jitter fills the gap
  after it (`SlotScheduler.ClaimableIff`). Every five minutes this strikes one key
  in 301; at minutes 0 and 3 it strikes the hourly slot of 121 keys in 301
  (`SlotScheduler.FiveMinuteSlotLostIff`, `SlotScheduler.ZeroAndThreeSlotLostIff`).
- A snapshot run still in dispatch when it comes due is failed by the sweep and
  then marked as running (`SnapshotRuns.RemarkReopens`).
- A panic of the log writer closes `done` with lines in hand
  (`LogBatcher.DeathLosesInHand`).
- A failed in-flight read counts as "nothing running" and lets two snapshot runs
  overlap, which nothing else does (`SnapshotRuns.StepKeepsInvIff`,
  `SnapshotRuns.FailedReadOverlaps`).
- A batch insert that took effect and still reported failure stores its lines
  twice (`LogBatcher.StoredTwiceIff`).

## Model

| member | source | states |
|---|---|---|
| `RunHistories.MutualExclusion` | automations/executor.go:355-381 | in every interleaving of firings, crashes, stale-claim breaking and sweeps on any number of nodes, if no live run outlasts the lease, two runs of one automation past their claim are the same run, and it still holds the guard |
| `RunExclusion.ExclusionIff` | automations/executor.go:355-381 | over every reachable state runs of an automation exclude each other exactly for store calls of at most 4.866 s, with panics or without; beyond, the violating history (lost verdict, sweep, rival's claim) |
| `RunExclusion.MutualExclusionByTimeBound` | automations/executor.go:30-44 | the sufficient half over histories, with the length of the step loop taken from the loop itself |
| `RunSafety.StepKeepsCore` | query/automations.query.go:310-345 | every kind of step keeps the part of the invariant exclusion rests on, as long as runs not past their guard are within the lease |
| `RunTiming.LeaseSufficesIff` | automations/executor.go:30-44 | every reachable live run is within its lease exactly for store calls of at most 4.866 s, or 4.492 s where runs may panic; beyond, a run of two HTTP calls and a redeploy outlasts it |
| `RunTiming.PromptIsTimely` | automations/executor.go:355-434 | if time passes only as store calls, and some course of the step loop over the run's own actions, allow, no live run outlasts the lease |
| `RunTiming.StepKeepsTimed` | automations/executor.go:227-434 | every kind of step keeps the time each process has spent within its account |
| `RunTiming.PromptRunsSettle` | automations/executor.go:355-434 | with a fast enough store, no crash and no lost write, every run is settled within a fixed age |
| `RunHistories.LeaseLostIff` | query/automations.query.go:310-337 | a rival takes the guard from a live holder exactly when the automation is active and the claim is older than the lease |
| `RunHistories.InvHolds` | automations/executor.go:227-330 | the invariant (guards name live or dead runs correctly, owners own, undecided runs are open, swept runs are dead, slots are counted) holds in every state of every history |
| `RunHistories.TerminalIsFinal` | automations/executor.go:527-578 | a terminal run row is never changed again by any step or sweep and has no pending step |
| `RunHistories.TerminalMeans` | automations/executor.go:227-434 | skipped exactly if the firing must not run, found no slot or found the guard held; success exactly by a loop whose every step succeeded; failed exactly by a failed step, an erring claim, a refusal, a panic or a sweep |
| `RunHistories.MustSkipNeverRuns` | automations/executor.go:236-241 | a firing of a disabled automation or an old slot never takes a slot, claims or runs |
| `RunHistories.FireInsertsIff` | query/automation_runs.query.go:91-140 | a firing inserts one pending run exactly unless its automation has a run for the slot already |
| `RunHistories.SlotOrSkip` | automations/executor.go:236-246 | a firing takes a slot exactly if it may run and fewer than ten are held, and is skipped exactly otherwise |
| `RunHistories.ClaimDecides` | automations/executor.go:367-375 | when a claim wins; a run that does not get the guard is skipped, one whose claim errs is failed |
| `RunHistories.RefusalReleases` | automations/executor.go:376-394 | a refused run is failed and still releases its guard |
| `RunHistories.NoGuardLeftBehind` | automations/executor.go:376-380 | while releases land and nothing crashes, a held guard always names a live run past its claim |
| `RunHistories.RetiredNeverClaimed` | query/automations.query.go:310-337 | once an automation is retired no run of it takes the guard |
| `RunHistories.ProgressIsRecorded` | automations/executor.go:518-522 | a progress write that lands shows exactly those steps, one that is lost nothing |
| `RunHistories.SweepKeepsProgress` | automations/executor.go:301-330 | a sweep keeps the steps a crashed run had on record and skips only pending ones |
| `RunHistories.CleanRunsSettle` | automations/executor.go:527-578 | without crashes and lost writes every run that is no longer live has a terminal status |
| `RunHistories.OldRunsAreSettled` | automations/executor.go:527-578 | and every run older than the lease is terminal with nothing pending |
| `RunHistories.PanicForgets` | automations/executor.go:356-362 | the row a panic handler writes shows every step skipped and none started, whatever ran |
| `RunHistories.StartedMeansFinishedOrSwept` | automations/executor.go:301-330 | a settled row shows a started step only if the loop's own verdict or a sweep settled it |
| `RunHistories.SweptRunIsFailed` | automations/executor.go:301-330 | a run on a sweep's list is failed, with nothing pending, once the sweep has gone through its list |
| `RunHistories.SweepSettlesOldRuns` | automations/executor.go:301-330 | a run in progress past the lease at the listing, below the limit, is failed with nothing pending and named by no guard once the sweep is through, whatever happens meanwhile |
| `RunHistories.SlotsAndSlotKeys` | automations/executor.go:596-605 | held runner slots are exactly the runs inside execute and at most ten per node; a schedule slot has at most one run |
| `RunSafety.StepKeepsInv` | automations/executor.go:227-434 | each of the twenty kinds of step keeps every part of the invariant |
| `RunSafety.BrokenClaimIsDead` | query/automations.query.go:310-337 | a claim old enough to be broken belongs to a run that is no longer live |
| `RunSafety.ReleaseKeepsOwners` | query/automations.query.go:339-345 | a release leaves every other run's claim in place |
| `RunTables.ReleaseIsOwn` | query/automations.query.go:310-345 | only the holder's release frees a claim and it restores the row; nobody else can claim it before it is stale |
| `RunTables.Store.ClaimAutomationRun` | query/automations.query.go:310-337 | wins exactly when the automation is active and free or stale; new table state |
| `RunTables.Store.ReleaseAutomationRun` | query/automations.query.go:339-345 | frees the guard only if this run holds it; new table state |
| `RunTables.Store.CreateAutomationRun` | query/automation_runs.query.go:91-140 | inserting a slot a second time is a no-op, otherwise exactly one fresh pending run; slot keys stay unique |
| `RunTables.Store.UpdateOutcome` | query/automation_runs.query.go:171-215 | writes status and steps of one run and nothing else |
| `RunTables.Store.ListStuckAutomationRuns` | query/automation_runs.query.go:266-274 | distinct stuck runs, all of them below the limit |
| `RunTables.Store.FailStuckRuns` | automations/executor.go:301-330 | fails exactly the listed runs, drops exactly their own guards, and below the limit leaves no stuck run |
| `RunTables.SweepLeavesNone` | automations/executor.go:301-330 | a sweep over all stuck runs leaves none |
| `RunSafety.SlotGranted` | automations/executor.go:596-604 | taking a slot adds exactly this run to those inside execute on its node, within the cap |
| `RunSafety.SlotReturned` | automations/executor.go:605-605 | leaving returns exactly this run's slot |
| `AutomationSteps.Execute` | automations/executor.go:355-434 | success exactly when the guard was taken, the role table allows it and every action started in the budget and got its answer in time; no step starts without guard and authority; steps match the actions; nothing is left pending; when it ends, and its bound |
| `AutomationSteps.SucceedsIffAnswered` | automations/executor.go:395-434 | a run has no failed step exactly when every action started in the budget and got what it was for |
| `AutomationSteps.RunActions` | automations/executor.go:395-434 | executed steps form a prefix and start in the budget, a failure is passed only where the action allows it, the loop stops early only for a failure or the budget, failed_step is the first failure; when the loop ends, and its bound |
| `AutomationSteps.ShapeIsDetermined` | automations/executor.go:395-434 | what the actions met and when the loop was entered determine every step record, how far the run got, whether the budget ran out and the failed step |
| `AutomationSteps.LoopEndsInTime` | automations/executor.go:395-434 | a loop of any length ends within the budget, one step's tail and one progress write |
| `AutomationSteps.VerdictCountsSteps` | automations/executor.go:527-533 | no failed step recorded exactly when every step succeeded |
| `AutomationSteps.RunStep` | automations/executor.go:436-478 | what the step records, succeeded exactly if its action got what it was for, and when it ends; it outlasts the budget by no more than two look-ups and one audit |
| `AutomationSteps.PerformAction` | automations/actions.go:105-261 | an HTTP step succeeds exactly on a 2xx answer within its timeout and the budget, a redeploy exactly if it finds a container with a worker in time and the worker's queue takes the command; when each returns |
| `AutomationSteps.Audit` | automations/executor.go:480-516 | up to three attempts with a pause after each failure; written exactly if one succeeds; how long it takes, and its bound |
| `AutomationSteps.FinishPending` | automations/executor.go:626-635 | keeps what is before the cut and what is decided, leaves nothing pending after it |
| `AutomationSteps.FinishPendingIsIdempotent` | automations/executor.go:626-635 | finishing twice is finishing once |
| `AutomationSteps.Authorise` | automations/authorize.go:88-118 | passes exactly an active admin with known trigger and actions, or an active editor with scheduled redeploys; otherwise reports the first objection |
| `AutomationSteps.MayRunIffTable` | automations/authorize.go:55-86 | the ranks amount to that table of roles, and viewers and unknown roles run nothing |
| `AutomationSteps.IdentityRefusals` | automations/authorize.go:88-106 | each objection before the actions, exactly when it is raised |
| `AutomationSteps.AuthorityIsMonotone` | automations/authorize.go:65-86 | a stronger active user may run whatever a weaker one may, a shorter list needs no more; webhooks and HTTP steps need an admin |
| `AutomationSteps.LeaseOutlivesRunsIff` | automations/executor.go:30-44 | every authorised run ends within the lease exactly when store calls take at most 4.866 s |
| `AutomationSteps.SlowRun` | automations/executor.go:395-434 | a run that takes the bound to the millisecond |
| `Cron.PreviousFires` | cron/cron.go:44-65 | exactly the `count` greatest matching minutes of the window, newest first, or all of them |
| `Cron.NewestIsUnique` | cron/cron.go:44-65 | that specification has one answer |
| `Cron.NewestIsMonotone` | cron/cron.go:44-65 | the newest slot never moves back as the clock advances |
| `Cron.Matches` | cron/cron.go:67-86 | the conjunction of the five fields; anything unreadable does not match |
| `Cron.FieldMatches` | cron/cron.go:109-120 | true exactly if a term matches before an unreadable one, error exactly if an unreadable one comes first |
| `Cron.Validate` | cron/cron.go:90-107 | accepts exactly five fields whose every term parses within the field's bounds |
| `Cron.ValidatedMatchIsMembership` | cron/cron.go:90-138 | on a validated field matching never errs and is membership in a union of bounded arithmetic progressions |
| `Cron.ValidatedFieldCanFireIff` | cron/cron.go:101-106 | a validated field can match some value exactly when one of its terms starts within its own bound |
| `Cron.SteppedPastMaxNeverMatches` | cron/cron.go:140-175 | every stepped number past the maximum is valid and matches nothing |
| `Cron.TermReadsBack` | cron/cron.go:140-175 | parsing inverts printing, for every term and field |
| `Cron.StepsCountFromFirst` | cron/cron.go:33-40 | the fields' bounds are exactly a calendar's values, and a step counts from the first of them |
| `Cron.ValidTerms` | cron/cron.go:97-105 | which printed terms validate, value by value |
| `Cron.UnreadableTerms` | cron/cron.go:140-175 | a step of zero and a backward range are not read |
| `Cron.AtoiSigned` | cron/cron.go:140-175 | numbers are read with an optional sign, within 64 bits |
| `SlotScheduler.JitterIsBounded` | database_scheduler.go:133-147 | between 0 and the lesser of five minutes and the period, half of a shorter period; equal to the period exactly in one case |
| `SlotScheduler.JitterSpreads` | database_scheduler.go:133-147 | every whole second up to the cap is some key's jitter |
| `SlotScheduler.Scheduler.Tick` | database_scheduler.go:149-191 | one tick claims the newest due slot if it is owed, its jitter has passed and its key is free |
| `SlotScheduler.SlotsClaimedInOrder` | automation_scheduler.go:40-79 | over any nondecreasing clock each slot is claimed at most once and in strictly increasing order |
| `SlotScheduler.ClaimedIffRipe` | automation_scheduler.go:40-79 | a slot is claimed exactly if some tick found it newest, owed and past its jitter |
| `SlotScheduler.EverySlotIsClaimed` | database_scheduler.go:149-191 | if jitter plus the gap between ticks fits before the next slot, the slot is claimed, and run if they fit into two hours |
| `SlotScheduler.RunIff` | database_scheduler.go:221-226 | a slot is run exactly if some tick found it ripe no later than two hours after it |
| `SlotScheduler.SkippedIff` | automation_scheduler.go:70-78 | it is recorded as skipped exactly if ticks found it ripe, but only later than that |
| `SlotScheduler.ClaimableIff` | database_scheduler.go:133-191 | some ticks claim a slot exactly when it is owed and its jitter, drawn from the gap before it, ends before the next slot |
| `SlotScheduler.FiveMinuteSlotLostIff` | database_scheduler.go:133-147 | every five minutes a slot is lost exactly for the keys whose jitter is the whole period |
| `SlotScheduler.ZeroAndThreeSlotLostIff` | database_scheduler.go:133-147 | at minutes 0 and 3 the slot on the hour is lost exactly for jitters of three minutes and more |
| `SnapshotRuns.AtMostOneRunning` | database_scheduler.go:193-284 | unless an in-flight read fails over a running run, no instance has two running runs in any reachable state, with sweeps, replies and restarts anywhere in between |
| `SnapshotRuns.StepKeepsInvIff` | database_scheduler.go:193-327 | every step keeps the invariant exactly unless it is a failed read over a running run |
| `SnapshotRuns.StatusMeans` | database_scheduler.go:193-327 | completed is a successful end of the run's own snapshot, skipped its dispatch before a snapshot started, failed a failed end, a failed start or a sweep, running the snapshot its dispatch started |
| `SnapshotRuns.RecordedEndDecides` | database_scheduler.go:309-327 | the last recorded end decides between completed and failed |
| `SnapshotRuns.EndClosesOwner` | database_scheduler.go:309-327 | the end of a snapshot closes the run that owns it, so and no other |
| `SnapshotRuns.DispatchEnds` | database_scheduler.go:193-284 | however a dispatch ends the scheduler is free for the next slot |
| `SnapshotRuns.CheckClearsIff` | query/database_snapshot_runs.query.go:111-130 | a claimed run is cleared exactly if the check failed or found no other open run |
| `SnapshotRuns.ClaimWinsIff` | query/database_snapshot_runs.query.go:51-79 | a slot is claimed exactly if its instance has no run for it |
| `SnapshotRuns.OneRunPerSlot` | query/database_snapshot_runs.query.go:51-79 | in every run of the machine an instance has at most one run per slot |
| `SnapshotRuns.SweepSparesYoung` | query/database_snapshot_runs.query.go:202-231 | a sweep lists open runs scheduled before its cutoff and no others |
| `SnapshotRuns.FailedReadOverlaps` | database_scheduler.go:193-284 | over a running run the check clears a second exactly if its read failed, and that one is then marked as running beside it |
| `SnapshotRuns.Store.ClaimSnapshotRun` | query/database_snapshot_runs.query.go:51-79 | wins exactly when the slot is free; one fresh claimed row |
| `SnapshotRuns.Store.ListStuckSnapshotRuns` | query/database_snapshot_runs.query.go:202-231 | distinct overdue open runs, all of them below the limit |
| `SnapshotRuns.Store.FailStuckRuns` | database_scheduler.go:286-306 | run alone, the number of overdue open runs falls by as many as there are, up to the limit; other rows keep |
| `SnapshotRuns.SweptUnlessRemarked` | database_scheduler.go:193-306 | once a sweep is through its list, a listed run is open exactly if the dispatch in progress marked it afterwards and nothing closed it since |
| `SnapshotRuns.OverdueRunIsClosedForGood` | database_scheduler.go:286-306 | a run overdue at a listing below the limit and not in dispatch is closed when the sweep is through, and for ever |
| `SnapshotRuns.BlockedOnlyByYoungRuns` | query/database_snapshot_runs.query.go:111-130 | after a complete sweep an instance is blocked only by a run claimed since, one younger than the timeout, or the one then in dispatch |
| `SnapshotRuns.RemarkReopens` | database_scheduler.go:265-284 | the exception is real |
| `DatabaseLifecycle.SyncIsIdempotent` | database_handlers.go:538-657 | the same report applied again, at any later time, changes no row and records no event |
| `DatabaseLifecycle.RunningReportDecides` | database_handlers.go:611-657 | a running report leads to `running` from every status exactly outside restart loops and failed creates; status, error, start and health in each case |
| `DatabaseLifecycle.LoopingReportDecides` | database_handlers.go:587-606 | three restarts with a known cause or still going lead to `degraded`, with InitFailed or RestartLoop |
| `DatabaseLifecycle.StoppedReportDecides` | database_handlers.go:628-640 | a stopped report leads to `stopped`, without error or health, exactly outside `deleting` and `error` |
| `DatabaseLifecycle.AbsentReportDecides` | database_handlers.go:556-585 | a missing container leads to `error` with ContainerMissing exactly from `running` and `degraded` |
| `DatabaseLifecycle.OtherReportDecides` | database_handlers.go:608-657 | paused, restarting and unknown states move neither status nor error; which health is kept |
| `DatabaseLifecycle.ReportNotesVolume` | database_handlers.go:541-554 | a measured volume is recorded whatever the status |
| `DatabaseLifecycle.RunningReportConfluent` | database_handlers.go:611-657 | any two rows, outside restart loops and failed creates, reach the same status under the same running report, and the same health if it carries one |
| `DatabaseLifecycle.DeletingSurvivesIff` | database_handlers.go:538-657 | `deleting` survives a report exactly when it shows the container neither running nor looping |
| `DatabaseLifecycle.TransitionExplains` | database_lifecycle.go:52-142 | error and degraded rows carry an error, running and stopped ones are cleared; a transition repeated does nothing |
| `DatabaseLifecycle.TransitionDecides` | database_lifecycle.go:52-142 | every part of the row after a transition, and that an event is recorded exactly if something changed or a start was given |
| `DatabaseLifecycle.HealthDecides` | database_lifecycle.go:311-350 | a health is written with one event exactly if it is news about an active row |
| `DatabaseLifecycle.WarningDecides` | database_lifecycle.go:228-303 | when a warning is raised and taken back, never touching the status |
| `DatabaseLifecycle.CompletedDecides` | database_handlers.go:62-76 | the status, start and error each completed command leads to |
| `DatabaseLifecycle.FailedDecides` | database_handlers.go:78-95 | the code and message each failed command leads to, and the two exceptions |
| `DatabaseLifecycle.AckDecides` | database_handlers.go:331-344 | an acknowledgement moves only a create outside a delete |
| `DatabaseLifecycle.ReplyIsRecorded` | database_handlers.go:292-399 | which replies leave how many events |
| `DatabaseLifecycle.Instance.DoTransition` | database_lifecycle.go:52-142 | the row and event count after a transition, with its no-op case |
| `DatabaseLifecycle.Instance.DoSetHealth` | database_lifecycle.go:311-350 | writes and records a health only when it changes on an active row |
| `DatabaseLifecycle.Instance.DoFinalizeDeletion` | database_lifecycle.go:163-217 | retires only a deleting row with its volume confirmed; otherwise an error or not taken |
| `DatabaseLifecycle.Instance.DoHandleStatus` | database_handlers.go:292-399 | the new row for every command and phase of a worker reply |
| `DatabaseLifecycle.Instance.DoReconcile` | database_handlers.go:538-657 | the new row for every observed state, from a listing that may be older than the row |
| `DatabaseSync.MatchObservedDatabase` | database_handlers.go:493-508 | the first container labelled for the instance, failing that the first unlabelled one of its name, or none |
| `DatabaseSync.MatchIsUnique` | database_handlers.go:493-508 | the match is determined by the report |
| `DatabaseSync.MatchesAreExclusive` | database_handlers.go:493-508 | no container is matched to two instances, none to an instance it is not labelled for |
| `DatabaseSync.FindDatabaseOrphans` | database_handlers.go:510-535 | in report order exactly the containers that carry no instance's id, nor go unlabelled by an instance's name, and the volumes no instance names |
| `DatabaseSync.MatchedIsNoOrphan` | database_handlers.go:493-535 | a matched container is never listed as an orphan |
| `DatabaseSync.OwnedMeansOwnerMatched` | database_handlers.go:493-535 | a container that is no orphan has an owner that is matched to it or to a better claim |
| `DatabaseSync.Worker.HandleDbSync` | database_handlers.go:427-490 | every row of the worker moves by its own container's report |
| `DatabaseSync.FleetSyncIsIdempotent` | database_handlers.go:427-490 | handling a whole report twice leaves every row and event count as once |
| `Deletion.RetiredExactlyBy` | database_lifecycle.go:163-217 | a row is retired exactly by a confirmed removal found `deleting`, or by a force whose write succeeds |
| `Deletion.RetiredIsFinal` | database_lifecycle.go:52-142 | no handler revives a retired row or moves it |
| `Deletion.RetiredWasConfirmed` | database_handlers.go:292-399 | without force, a retired row had its volume's removal commanded and then confirmed while `deleting` |
| `Deletion.FinalCommandExactlyBy` | database_handlers.go:136-185 | the volume-removing command of the final-snapshot path is sent exactly on a completed snapshot with the flag up; a failed one sends nothing |
| `Deletion.DirectCommandExactlyBy` | routers/HandleDatabaseInstances.router.go:694-766 | a direct delete's command is sent exactly to a reachable worker for an active unprotected database; protection stops everything |
| `Deletion.FlagRaisedExactlyBy` | routers/HandleDatabaseInstances.router.go:463-500 | the flag of a staged delete is raised exactly for an active, running, unprotected and ready database |
| `Deletion.UnreachableKeepsDatabase` | database_handlers.go:160-164 | a final snapshot that completes with the worker gone destroys nothing and leaves a warning |
| `Deletion.EndIsTaken` | ws_dispatch.go:535-566 | a snapshot's end is due once; a completed one takes back the stale-backup warning, a failed one leaves an event only |
| `Deletion.OthersReachRow` | database_reconciler.go:200-251 | what syncs, the watchdog, health and freshness do to an active row |
| `Deletion.DeleteGoesThrough` | database_lifecycle.go:163-217 | both kinds of delete do reach retirement |
| `Deletion.WatchdogDecides` | database_reconciler.go:140-184 | every stuck active row ends in `error` with the code of its case |
| `Deletion.FinalSnapshotCameFirst` | ws_dispatch.go:535-566 | if every delete asked for a final snapshot, a gone database had a completed snapshot processed first and its removal confirmed after |
| `Deletion.OneCommandPerFlag` | database_handlers.go:136-185 | at most one final command per flag raised, in every reachable state |
| `Deletion.DestroysIffFirst` | database_handlers.go:136-185 | after the flag is raised an event destroys the database exactly when it is the first completion recorded since, with the worker reachable |
| `Deletion.DestroyedByFirst` | database_handlers.go:136-185 | a database destroyed on this path was asked for, and is destroyed by the first completion recorded since |
| `Deletion.WaitsForOwnIff` | routers/HandleDatabaseInstances.router.go:463-500 | in every continuation that starts no other snapshot only the request's own destroys, exactly when none was in flight at the request |
| `Deletion.OtherSnapshotDestroys` | database_scheduler.go:193-284 | a history in which a snapshot started after the request destroys |
| `Deletion.StepKeepsInv` | database_handlers.go:136-399 | replies, syncs, watchdog passes, snapshot results and operator requests keep the deletion invariant |
| `Retention.PlanIsByRank` | database_handlers.go:230-247 | a pass sets out to delete exactly the listed copies with at least `keep` newer ones in its listing |
| `Retention.Store.ApplySnapshotRetention` | database_handlers.go:202-261 | run alone it leaves exactly the newest copies and the undeletable ones: two for a count of one, as many as the count says otherwise, all without a count; it touches nothing else |
| `Retention.FloorHolds` | database_handlers.go:202-261 | over every interleaving of passes with listings of any age, a snapshot is retired only if as many newer ones completed as the least count in use |
| `Retention.TwoNewestNeverExpire` | database_handlers.go:202-261 | the two newest snapshots that ever completed are never retired by retention, whatever retention_count does |
| `Retention.CopiesRemain` | ws_dispatch.go:549-566 | with no operator delete and no overwritten status, the newest completed copies are on no list, and at least two, or all that ever completed, remain |
| `Retention.GuaranteedIff` | database_handlers.go:236-261 | from any state, the passes under way are certain to leave `floor` copies exactly when that many are on none of their lists |
| `Retention.DisturbanceSparesIff` | routers/HandleDatabaseSnapshots.router.go:246-278 | a delete by an operator, a late report or a new pass keeps the floor exactly when enough copies are neither on a list nor taken by it |
| `Retention.DisturbedFloorFails` | database_handlers.go:236-261 | a reachable state with no copy left, by operator deletes or by late reports during a pass |
| `Retention.PassGoesOn` | database_handlers.go:247-260 | each step of a pass takes the next snapshot off its list and retires it exactly if the deletion succeeds |
| `LogBatcher.NothingIsLost` | container_log_batcher.go:71-150 | in every interleaving the lines added are those written, in hand, queued, stored directly or held by a producer; the queue path is FIFO; batches fit; nothing is sent on a closed channel |
| `LogBatcher.StoredTwiceIff` | container_log_batcher.go:141-150 | lines are stored a second time exactly if some batch insert took effect and still reported failure |
| `LogBatcher.DoneMeansStored` | container_log_batcher.go:87-139 | once done closes without a panic, queue and batch are empty and everything accepted is written in order, for good |
| `LogBatcher.DeathLosesInHand` | container_log_batcher.go:102-104 | after a panic in a store call exactly the lines in hand and in the queue stay unwritten |
| `LogBatcher.DrainMakesProgress` | container_log_batcher.go:102-139 | after Close the writer's steps use up a measure that reaches 0 exactly when it is done, and one is always possible |
| `LogBatcher.ReceiveFlushesIff` | container_log_batcher.go:121-131 | taking a line starts a flush exactly at maxRows lines or maxBytes bytes |
| `LogBatcher.TickWrites` | container_log_batcher.go:132-133 | what is in hand at a tick is stored before the writer takes another line, unless it dies |
| `LogBatcher.SentClosedMeans` | container_log_batcher.go:71-85 | the flag of the closed channel goes up exactly at a send after the close |
| `LogBatcher.OneLineIsStored` | container_log_batcher.go:48-150 | a line given to a new batcher is stored once it is closed and drained |
| `LogBatcher.StepKeepsInv` | container_log_batcher.go:71-150 | each step of producers, closer and writer keeps order, batch limits, drain and lock discipline |
| `LogBatcher.Batcher.Add` | container_log_batcher.go:71-85 | has the effect of one producer's steps of the machine, from lock to end |
| `LogBatcher.AddPlacesOnce` | container_log_batcher.go:71-85 | those steps put the line once into the queue or the store, leave no producer inside and never send on a closed channel |
| `LogBatcher.Batcher.Write` | container_log_batcher.go:141-150 | every line of the batch lands in order, batched or row by row |
| `LogBatcher.Batcher.Receive` | container_log_batcher.go:113-139 | one line moves from queue to batch; a full batch is written |
| `LogBatcher.Batcher.Drain` | container_log_batcher.go:102-139 | after Close it stores batch and queue in order whichever inserts fail, and leaves nothing |
| `RateLimiter.Limiter.Allow` | middleware/ratelimit.go:56-105 | the new map and answer; without the empty key the map never exceeds its cap |
| `RateLimiter.Limiter.EvictStaleLocked` | middleware/ratelimit.go:46-52 | drops exactly the buckets idle for longer than the age |
| `RateLimiter.Limiter.DropOldest` | middleware/ratelimit.go:68-85 | terminates, and drops only the least recently refilled buckets until there is room for one |
| `RateLimiter.Limiter.Oldest` | middleware/ratelimit.go:70-78 | a least recently refilled key |
| `RateBound.RateIsBounded` | middleware/ratelimit.go:56-105 | over any stretch of any run a client never crowded out is admitted at most burst + rps * elapsed times |
| `RateBound.AdmittedIffRateAllows` | middleware/ratelimit.go:56-105 | a client never crowded out is admitted exactly when every stretch from one of its requests to this one stays within burst + rps * elapsed |
| `RateBound.AdmittedIffWithinRate` | middleware/ratelimit.go:94-105 | the same of a single bucket on credit |
| `RateBound.EvictionIsInvisible` | middleware/ratelimit.go:46-105 | if buckets age long enough to fill, every answer is the one a never-evicted bucket would give |
| `RateBound.TokensStayInRange` | middleware/ratelimit.go:56-105 | in every run the map stays within its cap and each bucket between 0 and burst |
| `RateBound.SourceAgesSuffice` | middleware/ratelimit.go:194-238 | both limiters and both ages satisfy the condition |
| `NameCache.AnswersAreRecent` | container_cache.go:60-98 | in every interleaving a hit, or a remembered miss, is what the store returned less than its TTL plus the fetch-to-fill delay ago |
| `NameCache.FillServes` | container_cache.go:34-98 | how long each kind of fetched result is served, and to whom |
| `NameCache.InvalidateForgetsIff` | container_cache.go:103-108 | after Invalidate only later fetches answer, in every continuation, exactly when no fetch of the name is about to be stored |
| `NameCache.EvictionIsInvisible` | container_cache.go:121-134 | evicting changes no answer of any later sequence of steps |
| `NameCache.EvictionLeavesLive` | container_cache.go:121-134 | what stays is exactly what is live |
| `NameCache.LookupsEnd` | container_cache.go:60-98 | an answered lookup is over, a missed one goes on to fetch |
| `NameCache.NeverInBothIff` | container_cache.go:60-134 | in every run no name is ever live in both tables exactly when no log lookup records a miss over a live entry |
| `NameCache.StepExclusiveIff` | container_cache.go:60-134 | of all steps exactly that one makes a name live in both |
| `NameCache.BothLive` | container_cache.go:85-98 | two concurrent lookups from an empty cache that do it |
| `NameCache.FillExclusiveIff` | container_cache.go:72-98 | the same of one fill of the tables |
| `NameCache.Cache.GetContainerByName` | container_cache.go:60-79 | a live entry answers, anything else fetches and fills; run alone no name is live in both tables |
| `NameCache.Cache.LookupForLog` | container_cache.go:85-98 | a live miss answers, a fresh one is remembered; run alone no name is live in both tables |
| `NameCache.Cache.Invalidate` | container_cache.go:103-108 | both tables forget the name and nothing else |
| `NameCache.InvalidateAllForgetsIff` | container_cache.go:111-116 | after InvalidateAll only later fetches answer for a name exactly when no fetch of that name is about to be stored, for every name |
| `NameCache.Cache.EvictExpired` | container_cache.go:121-134 | keeps exactly the live contents |
| `Truncate.Shorten` | automations/actions.go:298-306 | unchanged if it fits, else cut at the last rune start and an ellipsis; at most n + 3 bytes; valid UTF-8 stays valid |
| `Truncate.CutKeepsCharacters` | automations/actions.go:298-306 | what is left is exactly the longest run of whole characters that fits, and one ellipsis |
| `Truncate.StartIffBoundary` | automations/actions.go:302-304 | in an encoded text a byte looks like a rune start exactly where a character starts |
| `Truncate.ValidIffEncoded` | automations/actions.go:294-297 | the grammar of section 4 of RFC 3629 accepts exactly the encodings of section 3 |
| `Truncate.ShortenForColumn` | automations/executor.go:557-558 | skip reasons, and trigger details likewise, fit 255 bytes and stay valid |

## Left out

- HTTP routing, responses, sessions, CSRF, JWT, SSO and encryption: request plumbing.
- SQL text and row scanning: only each statement's meaning is kept.
- Sockets, the runner, mail, webhooks, logging and broadcasts: replies arrive as any message in any order; events are only counted.
- The deployment monitor and its stack claims, mirrors of snapshots, metrics, search, compose import and overview counts.
- Operators editing a database's status or active flag directly.
- Step summaries, error texts and audit contents; failed_step is modelled in the step loop but is not a column of the run table model.
- Snapshot ends reported more than once: a report is of a snapshot whose end is still due.
- One clock for all nodes: skew between control planes is not modelled.
- A panic after the verdict is written; a panic before it is modelled in the run protocol, and Execute covers runs without one.
- The cron calendar and splitting an expression at white space: the calendar is any function from minutes to field values, an expression the list of its fields. Atoi's digits and signs are modelled.
- The FNV hash and the deployment seed: any natural number.
- Rounding of float64 in the limiter: tokens and times are reals.
- RateLimiter.Limiter.Allow: the cap and the transition are stated without the empty key, which ends the drop-oldest loop early; the middleware passes a client address.
- RateBound.RateIsBounded: asks that the client is never dropped to make room; the code gives such a client a new full bucket.
- Failed writes of a database's row, except retiring it and clearing its pending flag; loads fail only because the row is retired.
- Interleavings inside one database message handler: handlers are atomic steps, except that syncs, watchdog passes and retention passes may work from listings of any age.
- The instant between reading a remembered miss and comparing its age in the cache: the two are one step.
- RunTables.Store.FailStuckRuns: with successful writes; failed ones are covered in the run protocol.
- SnapshotRuns.Store.FailStuckRuns: with successful writes; failed ones are covered in the run state machine.
- LogBatcher.Batcher.Add: one goroutine at a time; the interleavings are in the state machine of the same file.
- LogBatcher.Batcher.Drain: time ticks during the drain, which only flush earlier, are in the state machine.
- Rows whose single store fails in the batcher: handing a line to the single store counts as storing it.
