# omarchy-yolo: a verified model

A Dafny 4.11 model of the control plane of omarchy-yolo, a job orchestrator that lets coding agents
work on a goal in Git worktrees, integrates what passes, and hands an accepted commit back to the
user's branch. `dafny verify dfyconfig.toml` checks the whole project.

**The durable store.** `Model.dfy`, `StateMachine.dfy` and `Store.dfy` give the rows, the transition
tables and, for every public mutation, the state after COMMIT or the error after ROLLBACK.
`Database.dfy` is the store as the program keeps it, a class whose methods update its tables and roll
them back, each proved to do exactly what its function says; `Columns.dfy` says of the rows before and after which
column each write sets, which rows it leaves, and when the attempt and task writes are accepted. `Invariant.dfy` states the invariant the
per-commit validator is too weak for; `Preservation.dfy`, `Journal.dfy`, `Recovery.dfy` and `Runs.dfy`
prove it over every sequence of writes. `Acceptance.dfy` draws the consequences for the journal
`none -> accepted -> applying -> published`.

**Source application.** SQLite and Git cannot share a transaction. `Git.dfy` models the repository and
the reconciliation call command by command, `GitRepo.dfy` is the imperative form with any command
failing, `Apply.dfy` interleaves accepted runners with user moves, stops, crashes and recoveries and
proves source safety, and `Refinement.dfy` proves that crashes change nothing in the end.

**Planning, scheduling, working, finishing.** `Planner.dfy` (validation and the depth-first search),
`Dag.dfy` (the scheduling loop on the store), `Worker.dfy`, `WorkerWrites.dfy` and `WorkerLoop.dfy` (the attempt loop, with
other writes performed through `Interleaving.dfy` at every await), `Numbering.dfy` (attempt numbers over
the life of a task, crashes and resumes included), `Finalize.dfy` (final cycles) and
`Orchestrator.dfy` (completing, resuming and ending a run, on the store and the repository objects, with
the writes of others at its awaits from `Awaits.dfy`), `Endings.dfy` (why the handlers of a run succeed).

**Review.** `Labels.dfy` (path labels and their decoder), `ReviewSource.dfy` (the greedy splitter),
`ReviewChunks.dfy` (headers, budgets, shards), `Review.dfy` (the three-level review and its coverage).

**Locks.** `Locks.dfy` and `Coordinator.dfy` (per-repository locks in a dictionary and the shielded wait
for a thread, under cancellation), `Deadlock.dfy` (slots, merge locks and repository locks together, with
orchestrators that create their workers as they go).

**Provenance.** `Dossier.dfy` (the event digest and when a dossier can be rebuilt).

Conventions. Each public store method is one atomic step; events written after a transaction are steps
of their own. SHA-256, canonical JSON, the answer of `git merge-base --is-ancestor`, generated ids and
the diff of a commit are parameters. What agents, gates, reviewers and repairs answer comes in as arbitrary functions, so that every
result is said for all answers; what others write between two awaits is any run of writes. UTF-8 sizes follow
section 3 of RFC 3629, JSON strings section 7 of RFC 8259; the lock queue follows `asyncio.Lock` of
Python 3.12.

Where the code and its own promises part, the code is modelled and the difference is a lemma:

- The commit-time validator admits a task in flight under a PLANNING job (`Acceptance.ValidatorIsWeaker`).
- The store itself does not freeze the final summary (`Acceptance.SummaryIsTheCallers`).
- `skipped` does not say that the accepted commit is missing: `Git.SkippedThoughContained` says exactly
  when it is there, `Git.SkippedAfterTheMove` how the call gets there.
- Recovery requeues a job with refused tasks without setting them free (`Dag.RecoveredJobIsSchedulable`,
  `Endings.CrashBetweenFailures`); such a run ends as failed.
- The store takes a stop flag without STOPPING, on which the handler of a cancellation fails
  (`Endings.FlagAloneBreaksTheHandler`); the program never gets there (`Endings.HandlersAlwaysSucceed`).
- A rejection with a summary and only blank findings is not heard by the audits (`Review.SilentRejections`
  characterises these, `Review.RejectionUnheard` is one, `Review.RejectedYetAudited` what it can lead to).
- Labels are injective on what `os.fsdecode` returns, not on all strings (`Labels.SameLabel` says exactly
  when two paths share one).
- The lock dictionary need not empty (`Locks.EntryDropped`, `Locks.IdleEntryRemains`).

## Model

| member | source | states |
|---|---|---|
| `DatabaseClass.Database.constructor` | src/omarchy_yolo/db_core.py:280-332 | A fresh database holds no rows and no events. |
| `DatabaseClass.Database.CreateJob` | src/omarchy_yolo/db_records.py:14-58 | Inserts one QUEUED row and its `job.created` event, or rolls back and reports the key violation; the whole state afterwards is the specification's. |
| `DatabaseClass.Database.LastSeq` | src/omarchy_yolo/db_records.py:99-101 | The largest `seq` of the job's tasks, 0 without tasks. |
| `DatabaseClass.Database.AddTasks` | src/omarchy_yolo/db_records.py:77-136 | Inserts the plan's rows in order with increasing `seq`; only QUEUED or PLANNING jobs before acceptance; a key violation on any row takes all of them back. |
| `DatabaseClass.Database.LogEvent` | src/omarchy_yolo/db_records.py:158-181 | Appends exactly one ledger entry for an existing job and changes nothing else. |
| `DatabaseClass.Database.ListTasks` | src/omarchy_yolo/db_records.py:138-142 | Exactly the job's tasks, each once, ordered by `seq`. |
| `DatabaseClass.Database.UpdateJob` | src/omarchy_yolo/db.py:55-105 | Writes the patch, or changes nothing and reports a missing row, an illegal transition, completion outside publication, a frozen field after acceptance, or an invalid snapshot. |
| `DatabaseClass.Database.RequestStop` | src/omarchy_yolo/db_records.py:321-323 | STOPPING and the stop flag are one write; the event follows only when it was accepted. |
| `DatabaseClass.Database.UpdateTask` | src/omarchy_yolo/db.py:107-184 | Writes the patch and pulls a QUEUED or PLANNING job to RUNNING with a task in flight; refuses illegal transitions, accepted jobs, completion over a running attempt and invalid snapshots. |
| `DatabaseClass.Database.StartAttempt` | src/omarchy_yolo/db.py:186-265 | Inserts a running attempt only for a RUNNING job and task of that job without another running attempt and with an unused number; otherwise nothing changes. |
| `DatabaseClass.Database.FinishAttempt` | src/omarchy_yolo/db.py:267-318 | Ends a running attempt once, in a terminal state; a finished attempt is never written again. |
| `DatabaseClass.Database.StageDossier` | src/omarchy_yolo/db_provenance.py:105-164 | Stores an unpublished dossier whose digest matches, only before acceptance. |
| `DatabaseClass.Database.PrepareAcceptedJob` | src/omarchy_yolo/db_provenance.py:181-309 | Journals commit, intent, summary and dossier in one transaction with one `job.accepted` event; an identical replay changes nothing and a different one is refused. |
| `DatabaseClass.Database.MarkApplyStarted` | src/omarchy_yolo/db_provenance.py:311-362 | accepted to applying for the journaled commit and a requested intent, once, with one event; a replay changes nothing. |
| `DatabaseClass.Database.PublishCompletedJob` | src/omarchy_yolo/db_provenance.py:400-578 | COMPLETED, `published`, dossier visible and its events in one transaction, only from the phase and outcome the intent allows; a replay with the same outcome changes nothing. |
| `DatabaseClass.Database.RetryFailedTasks` | src/omarchy_yolo/db_recovery.py:27-53 | Every task that is not COMPLETED becomes PENDING, only for an inactive job before acceptance. |
| `DatabaseClass.Database.SettleInflight` | src/omarchy_yolo/db_recovery.py:55-115 | All running attempts of the job are closed and all its tasks in flight moved in one transaction, with the texts bounded and kept as the SQL does. |
| `DatabaseClass.Database.ResumeTransaction` | src/omarchy_yolo/db_recovery.py:117-174 | A STOPPED or FAILED job becomes QUEUED with its attempts closed and its tasks reset; the final validation never fails. |
| `DatabaseClass.Database.PrepareResume` | src/omarchy_yolo/db_recovery.py:117-175 | The transaction, then one `job.resumed` event exactly when it committed. |
| `DatabaseClass.Database.RecoverTransaction` | src/omarchy_yolo/db_recovery.py:177-313 | The bulk updates of all interrupted jobs commit together or not at all and give exactly the specified rows. |
| `DatabaseClass.Database.RecoverIncomplete` | src/omarchy_yolo/db_recovery.py:177-323 | Returns exactly the accepted and the requeued jobs; after the transaction it adds exactly one event for each accepted, requeued and stopped job, with the name for its kind. |
| `Invariant.SnapshotByRows` | src/omarchy_yolo/state_machine.py:113-183 | The validator over collected state sets accepts exactly when the stated property of the rows holds. |
| `Columns.FinishAttemptStores` | src/omarchy_yolo/db.py:293-307 | The row gets the state, return code and summary that were passed in; its other columns, every other row and the ledger stay. |
| `Columns.FinishAttemptAccepts` | src/omarchy_yolo/db.py:283-318 | Accepted for exactly the running attempts and the terminal states; an unknown id is a KeyError. |
| `Columns.StartAttemptStores` | src/omarchy_yolo/db.py:241-262 | The new row holds the arguments and is running; the task had no other running attempt and no such number; nothing else changes. |
| `Columns.StartAttemptAccepts` | src/omarchy_yolo/db.py:201-240 | Accepted exactly for a running task of a running ordinary job without another running attempt, with an unused id and number. |
| `Columns.UpdateTaskStores` | src/omarchy_yolo/db.py:140-184 | Each column is what the patch says or what it was; no other task, attempt, dossier or entry changes. |
| `Columns.UpdateTaskActivates` | src/omarchy_yolo/db.py:141-152 | The job is pulled to RUNNING exactly when a task enters flight in a QUEUED or PLANNING job, and changes in nothing else. |
| `Columns.UpdateTaskAccepts` | src/omarchy_yolo/db.py:120-139 | Accepted exactly for a task of an ordinary job along a transition, into flight only while the job is not over, out of flight only without a running attempt. |
| `Columns.AddTasksStores` | src/omarchy_yolo/db_records.py:99-130 | Exactly the rows of the plan are inserted, numbered on from the job's largest number, each column from the planned task. |
| `Columns.CreateJobStores` | src/omarchy_yolo/db_records.py:30-56 | The row holds the arguments and the defaults of a QUEUED job; one event. |
| `Columns.UpdateJobStores` | src/omarchy_yolo/db.py:87-105 | Each column is what the patch says or what it was; the journal columns and every other row stay. |
| `Columns.StageDossierStores` | src/omarchy_yolo/db_provenance.py:136-164 | The dossier row holds the arguments, unpublished; nothing else changes. |
| `Columns.PrepareStores` | src/omarchy_yolo/db_provenance.py:252-309 | Commit, intent, summary and dossier as passed in, outcome, reason, error and stop flag cleared, one entry with commit, intent and digest. |
| `Columns.MarkApplyStores` | src/omarchy_yolo/db_provenance.py:332-362 | Only the phase changes, and one entry names the commit. |
| `Columns.PublishStores` | src/omarchy_yolo/db_provenance.py:480-578 | The row, the dossier flag and the two or three entries, column by column. |
| `Columns.SettleStores` | src/omarchy_yolo/db_recovery.py:83-115 | Running attempts of the job are closed and its tasks in flight moved with the bounded text; every other row stays. |
| `Columns.RetryStores` | src/omarchy_yolo/db_recovery.py:40-53 | Every unfinished task of the job becomes PENDING and changes in nothing else. |
| `Columns.ResumeStores` | src/omarchy_yolo/db_recovery.py:135-172 | The job is QUEUED with flag and error cleared, its running attempts are cancelled, its unfinished tasks PENDING; nothing else changes. |
| `Columns.RecoverJobs` | src/omarchy_yolo/db_recovery.py:222-305 | Which columns of a job recovery writes: of a requeued one, a stopped one, an accepted one, and of no other. |
| `Columns.RecoverStores` | src/omarchy_yolo/db_recovery.py:240-305 | Tasks in flight of requeued jobs become PENDING and of stopped jobs STOPPED, their running attempts are cancelled with the text of their kind, and all other rows stay. |
| `Runs.TryKeeps` | src/omarchy_yolo/db_core.py:478-488 | Every accepted write of the store keeps the strengthened invariant and only advances the rows. |
| `Runs.RunKeeps` | src/omarchy_yolo/db.py:52-318 | Over every sequence of writes, accepted or refused: a task in flight implies a RUNNING or STOPPING job, at most one running attempt a task, completed tasks stay completed, finished attempts are never rewritten, the ledger only grows. |
| `Runs.ReachableInv` | src/omarchy_yolo/db_core.py:447-488 | Every state reached from an empty database satisfies the strengthened invariant. |
| `Preservation.UpdateTaskKeeps` | src/omarchy_yolo/db.py:107-184 | `update_task` keeps the invariant, though the validator it relies on checks less. |
| `Preservation.StartAttemptKeeps` | src/omarchy_yolo/db.py:186-265 | `start_attempt` keeps numbers unique and one running attempt a task. |
| `Preservation.FinishAttemptKeeps` | src/omarchy_yolo/db.py:267-318 | `finish_attempt` keeps the invariant and rewrites no finished attempt. |
| `Preservation.UpdateJobKeeps` | src/omarchy_yolo/db.py:55-105 | `update_job` keeps the invariant and the frozen fields of accepted jobs. |
| `Preservation.SettleKeeps` | src/omarchy_yolo/db_recovery.py:83-115 | The bulk updates of `settle_inflight` keep the invariant. |
| `Preservation.RetryKeeps` | src/omarchy_yolo/db_recovery.py:27-53 | `retry_failed_tasks` keeps the invariant and no completed task regresses. |
| `Preservation.ResumeKeeps` | src/omarchy_yolo/db_recovery.py:117-175 | `prepare_resume` keeps the invariant and no completed task regresses. |
| `Journal.AddTasksKeeps` | src/omarchy_yolo/db_records.py:77-136 | Adding a plan keeps logical ids unique per job and the invariant. |
| `Journal.PrepareKeeps` | src/omarchy_yolo/db_provenance.py:240-309 | Journaling acceptance keeps the invariant: all tasks completed, nothing running, one `job.accepted` entry. |
| `Journal.MarkApplyKeeps` | src/omarchy_yolo/db_provenance.py:311-362 | Starting the application keeps the invariant and the ledger counts. |
| `Journal.PublishKeeps` | src/omarchy_yolo/db_provenance.py:455-578 | Publication keeps the invariant and each publication entry occurs exactly once. |
| `Recovery.RecoverNeverRaises` | src/omarchy_yolo/db_recovery.py:209-313 | From every state of the invariant recovery commits: no transition is illegal and no snapshot invalid. |
| `Recovery.RecoverKeeps` | src/omarchy_yolo/db_recovery.py:222-309 | Recovery keeps the invariant and only advances the rows. |
| `Recovery.RecoverSettlesEveryJob` | src/omarchy_yolo/db_recovery.py:177-323 | Afterwards every ordinary unfinished job is QUEUED or STOPPED, by its stop request, with nothing in flight or running; accepted jobs keep tasks, attempts, dossier and journal; finished jobs keep every row. |
| `Recovery.ReturnedIds` | src/omarchy_yolo/db_recovery.py:323 | The returned jobs are exactly those then in acceptance or QUEUED. |
| `Recovery.RecoverIdempotent` | src/omarchy_yolo/db_recovery.py:177-323 | Recovering a recovered store changes no row. |
| `Acceptance.AcceptanceIsOneWay` | src/omarchy_yolo/db.py:72-86 | Once the phase leaves `none`, no sequence of writes queues, stops or fails the job, moves the phase back, or changes commit, intent, dossier content, tasks or attempts. |
| `Acceptance.PublicationInvariant` | src/omarchy_yolo/db_provenance.py:446-575 | In every reachable state COMPLETED, `published` and a visible dossier coincide; then the digest matches, the commit is not empty, the outcome fits the intent and each journal entry exists exactly once. |
| `Acceptance.PrepareReplay` | src/omarchy_yolo/db_provenance.py:223-239 | Preparing again, whatever happened in between, changes nothing with the same metadata and is refused with other metadata. |
| `Acceptance.PublishReplay` | src/omarchy_yolo/db_provenance.py:446-453 | Publishing again at any later time: with the schema version, digest and outcome that were published it changes nothing, whatever summary and reason come with it; with any other outcome, digest or version it is refused. |
| `Acceptance.ResumeAcceptedPublishes` | src/omarchy_yolo/orchestrator.py:228-278 | From the accepted or applying phase the durable writes of the resumed acceptance are all accepted and end in the published row. |
| `Acceptance.RecoveryReachesPublication` | src/omarchy_yolo/db_recovery.py:222-236 | Recovery followed by the resumed acceptance reaches publication with the commit and summary that were accepted. |
| `Acceptance.HandlersSettleTheJob` | src/omarchy_yolo/orchestrator.py:136-197 | The writes of run_job's handlers for ordinary work are accepted exactly when an error does not find the job STOPPED and a cancellation with the stop flag finds it STOPPING or STOPPED; accepted, they leave it at rest in FAILED, STOPPED or QUEUED. |
| `Endings.HandlersAlwaysSucceed` | src/omarchy_yolo/orchestrator.py:136-197 | After any history of the program's own writes, from the start of a run on a queued job and through whatever happens while it lives, the handlers' writes are accepted, for a cancellation and for an error. |
| `Endings.HandlersStore` | src/omarchy_yolo/orchestrator.py:136-197 | What the handlers leave, row by row: work in flight FAILED after an error, STOPPED after a stop, otherwise PENDING; its attempts failed or cancelled with the text; the job's state and error; all other rows as they were. |
| `Endings.StepAgrees` | src/omarchy_yolo/db_records.py:321-323 | Every write of the program keeps stop flag and state of ordinary jobs in agreement: the flag is set in STOPPING and clear in QUEUED, PLANNING and RUNNING. |
| `Endings.LiveRunStays` | src/omarchy_yolo/daemon.py:232-262 | While a runner lives nothing else ends its job in STOPPED or FAILED. |
| `Endings.FlagAloneBreaksTheHandler` | src/omarchy_yolo/db.py:55-105 | The store also takes the stop flag alone, which the program never sets: from any RUNNING job this makes the handler of a cancellation fail. |
| `Endings.CrashBetweenFailures` | src/omarchy_yolo/orchestrator_task.py:283-291 | A crash between the failure of a task and that of its job leads, through recovery, to a QUEUED job with a FAILED row. |
| `Acceptance.ValidatorIsWeaker` | src/omarchy_yolo/state_machine.py:113-183 | The commit-time validator alone admits a task in flight under a PLANNING job; no run reaches such a state. |
| `Acceptance.SummaryIsTheCallers` | src/omarchy_yolo/db_provenance.py:400-500 | Whatever can be published, in either phase and with either outcome, can be published under any other final summary: the store does not freeze it. |
| `Git.ReconcileEligible` | src/omarchy_yolo/git.py:696-738 | On the base branch, clean: `applied` exactly when HEAD contains the accepted commit or HEAD is the base commit and an ancestor of it; `skipped` exactly when it moved elsewhere; the reason says which; HEAD moves only to the accepted commit. |
| `Git.ReconcileSkips` | src/omarchy_yolo/git.py:692-697 | A detached base, another branch or a dirty worktree gives `skipped` with the first of these reasons that holds, and moves nothing. |
| `Git.ReconcileRefuses` | src/omarchy_yolo/git.py:686-691 | A moved integration ref raises and moves nothing. |
| `Git.ReconcileTwice` | src/omarchy_yolo/git.py:679-685 | Calling it again after it took effect gives the same outcome and moves nothing. |
| `Git.OnlyMergeMoves` | src/omarchy_yolo/git.py:724-731 | If the call moved anything, it moved a clean base branch to the accepted commit, by fast-forward. |
| `Git.SkippedThoughContained` | src/omarchy_yolo/git.py:686-698 | With the ref kept, a call ends `skipped` on a source that has the accepted commit exactly when the source had it and the base is detached, another branch is checked out or the worktree is dirty. |
| `Git.SkippedAfterTheMove` | src/omarchy_yolo/git.py:692-697 | That state is one the call itself leads to: after every reconciliation that ended `applied`, an edit before publication makes the next call skip. |
| `GitRepoClass.GitRepo.MergeFastForward` | src/omarchy_yolo/git.py:724-731 | The ff-only merge moves HEAD to the commit exactly when HEAD is its ancestor. |
| `GitRepoClass.GitRepo.ReconcileFastForwardSource` | src/omarchy_yolo/git.py:672-738 | The method, command by command and with any command failing, leaves exactly the repository and the result of the command-wise specification. |
| `Apply.SourceSafety` | src/omarchy_yolo/orchestrator.py:249-265 | Any control-plane step that changes the repository is the merge of a job durably `applying` with a requested application, to the journaled commit, with the old HEAD an ancestor of it. |
| `Apply.SourceSafetyOfRuns` | src/omarchy_yolo/git.py:686-738 | The same along every interleaving with user moves, crashes, stops and recoveries; and a job published as `applied` had its accepted commit in a HEAD the source was at during the reconciliation that was published. |
| `Apply.HistoryIsOfTheCall` | src/omarchy_yolo/git.py:698-738 | The HEADs remembered for a job are those from the entry of its last reconciliation to its end: a new reconciliation starts from the HEAD it finds, and nothing seen before or after counts. |
| `Apply.DecidedHere` | src/omarchy_yolo/git.py:698-738 | A command that ends the call `applied` has the accepted commit in a HEAD of this very call. |
| `Git.RestAside` | src/omarchy_yolo/git.py:672-738 | Whatever others commit, branch or check out elsewhere in the repository, the rest of a call from any command ends alike: the same result, and a source with the same HEAD, checkout and accepted ref. |
| `Git.CommitElsewhere` | src/omarchy_yolo/orchestrator_integration.py:43-130 | A commit of another job on its own branch, with known parents, is such a change. |
| `Refinement.AcceptJournals` | src/omarchy_yolo/orchestrator.py:217-226 | The state right after a runner journals its acceptance, with a healthy source, is one the refinement starts from. |
| `Refinement.CrashRefinement` | src/omarchy_yolo/orchestrator.py:228-278 | With the job's own Git calls succeeding and nobody else moving the source checkout or the accepted ref, any crashes, restarts, other writes, commits and branches elsewhere, acceptances and runner steps of other jobs end, if published, with the outcome and the row of an undisturbed run and a source with its HEAD, checkout, clean flag and all its commits. |
| `Refinement.HistoriesAgree` | src/omarchy_yolo/orchestrator.py:249-278 | Any two such histories agree on HEAD, checkout, clean flag and accepted ref of the source and, the reason text aside, on the job row. |
| `Refinement.RunnerCompletes` | src/omarchy_yolo/orchestrator.py:228-278 | A runner of an accepted job publishes within a bounded number of its own steps. |
| `Refinement.RestartCompletes` | src/omarchy_yolo/db_recovery.py:209-236 | From any point of any such history one more restart completes the job within ten runner steps. |
| `Planner.Traversal.Visit` | src/omarchy_yolo/planner.py:170-180 | Returns exactly when no cycle is met below the node, leaving the visiting set as it was and the node visited; raising implies a cycle. |
| `Planner.Traverse` | src/omarchy_yolo/planner.py:167-183 | The traversal succeeds exactly when the graph has no cycle, exactly when a rank exists that decreases along every dependency. |
| `Planner.Validate` | src/omarchy_yolo/planner.py:131-183 | Raises the first failing check in source order and nothing else; acceptance yields a rank that strictly decreases along every dependency. |
| `Planner.RankedHasNoCycle` | src/omarchy_yolo/planner.py:167-183 | A graph with such a rank has no cycle. |
| `Planner.PlanGraphClosed` | src/omarchy_yolo/planner.py:149-157 | Every dependency of an accepted plan is one of its tasks. |
| `Planner.SomeNodeIsFree` | src/omarchy_yolo/planner.py:167-183 | In an accepted graph every non-empty set of tasks has one depending on none of the others. |
| `Dag.PlannedJobIsSchedulable` | src/omarchy_yolo/orchestrator.py:284-318 | Storing a validated plan, or the one-task fallback, makes the job schedulable: acyclic, every task pending or completed. |
| `Dag.ResumedJobIsSchedulable` | src/omarchy_yolo/db_recovery.py:117-175 | A resumed job is schedulable again. |
| `Dag.RecoveredJobIsSchedulable` | src/omarchy_yolo/db_recovery.py:237-273 | A job requeued by recovery is schedulable exactly when none of its tasks is FAILED, BLOCKED or STOPPED. |
| `Dag.BystandersUndisturbed` | src/omarchy_yolo/orchestrator.py:359-365 | Whatever workers write to their own tasks, users to the job and anyone to other jobs while the scheduler waits, the rows it relies on stay. |
| `Dag.SomethingIsReady` | src/omarchy_yolo/orchestrator.py:335-344 | With no active handle and unfinished work, an acyclic plan always has a ready task. |
| `Dag.Scheduler.Launch` | src/omarchy_yolo/orchestrator.py:335-353 | Starts only ready tasks, the first ones in the order of the rows, never more handles than max_parallel, and leaves no ready task unstarted below the limit. |
| `Dag.Scheduler.Collect` | src/omarchy_yolo/orchestrator.py:366-379 | Goes on exactly when every collected handle returned true. |
| `Dag.Scheduler.Round` | src/omarchy_yolo/orchestrator.py:365-379 | A round goes on exactly when all collected handles returned true, and then has strictly less open work and keeps the job schedulable. |
| `Dag.Scheduler.Block` | src/omarchy_yolo/orchestrator.py:357-363 | Every unfinished task listed is BLOCKED with the reason, unless a transition is refused. |
| `Dag.Scheduler.Schedule` | src/omarchy_yolo/orchestrator.py:321-363 | A stop request, and nothing else, ends the round before anything is read or started; the ready tasks with the lowest numbers are started; stalled only with nothing active, nothing ready and work left, which is then all blocked; never on a schedulable job with max_parallel at least 1. |
| `Dag.Scheduler.ExecuteDag` | src/omarchy_yolo/orchestrator.py:320-379 | Always ends; with all tasks COMPLETED and no stop request, or a stop seen, or a failed row or handle; at most max_parallel handles at any time; never stalls on a validated plan; a job handed over with a stop request ends as stopped, one with a FAILED row as failed, at once and unchanged. |
| `Labels.UndoDisplay` | src/omarchy_yolo/review_source.py:54-64 | Decoding a label gives the path with its surrogate pairs joined, for every string. |
| `Labels.RoundTrip` | src/omarchy_yolo/review_source.py:54-64 | The label reads back to the path exactly when no high surrogate is directly followed by a low one. |
| `Labels.SameLabel` | src/omarchy_yolo/review_source.py:54-64 | Two paths share a label exactly when they are equal after joining surrogate pairs. |
| `Labels.InjectiveOnFsDecoded` | src/omarchy_yolo/review_source.py:60-64 | Over all `os.fsdecode` results labels are injective and decodable. |
| `Labels.NotInjectiveWithPairs` | src/omarchy_yolo/review_source.py:60-64 | Over all strings they are not: a surrogate pair and its character share a label. |
| `Labels.SingleLine` | src/omarchy_yolo/review_source.py:60-64 | Every label is one non-empty line of printable ASCII. |
| `Labels.PlainIsShownAsItIs` | src/omarchy_yolo/review_source.py:54-63 | A plain path is its own label and is never taken for an encoded one. |
| `ReviewSource.LinesCover` | src/omarchy_yolo/review_source.py:146 | The lines are non-empty and make up the text. |
| `ReviewSource.SplitLine` | src/omarchy_yolo/review_source.py:155-167 | The fragments of an oversized line add up to it and keep the size and density properties. |
| `ReviewSource.SplitText` | src/omarchy_yolo/review_source.py:132-169 | The pieces concatenate to the text; each fits the budget or is one character beyond it; lines that fit are never cut; any three consecutive pieces exceed the budget minus 4 bytes. |
| `ReviewChunks.PartCount` | src/omarchy_yolo/review_source.py:204-211 | A text of at most 32 MB with a budget of at least 1024 makes fewer than 999999 pieces. |
| `ReviewChunks.HeaderFits` | src/omarchy_yolo/review_source.py:201-215 | No header is larger than the probe the budget was computed with. |
| `ReviewChunks.StripHeaderOf` | src/omarchy_yolo/review_source.py:213-216 | A label on one line lets the payload be told from the header. |
| `ReviewChunks.ShardFile` | src/omarchy_yolo/review_source.py:208-234 | The shards of one file are numbered on, headed with their part number, within the chunk size, and lose nothing; with a configured chunk size the overflow guard never fires. |
| `ReviewChunks.ChunkFile` | src/omarchy_yolo/review_source.py:191-218 | The queries and checks on one file refuse in source order. |
| `ReviewChunks.BuildReviewChunks` | src/omarchy_yolo/review_source.py:172-235 | Refuses exactly by the first Git query that does not complete within its ceiling or the first failing check, in file order, never by the overflow guard with a configured chunk size; otherwise the manifest lists every file and the chunks are the complete shards of every file, numbered and bounded. |
| `Review.ReviewFailure` | src/omarchy_yolo/orchestrator_integration.py:284-304 | None exactly when every non-pass review has nothing to quote; otherwise the verdict is fail exactly when some review failed, and the findings are the quoted ones, bounded at 64 and a count. |
| `Review.SilentRejections` | src/omarchy_yolo/reviewer.py:214-226 | The rejections without anything to quote that the reviewer contract lets through: a summary and only blank findings. |
| `Review.RejectionUnheard` | src/omarchy_yolo/orchestrator_integration.py:296-300 | A failing review with the findings ("",) and a summary is such a rejection: the shard audit passes over it. |
| `Review.CoverNamesOnly` | src/omarchy_yolo/orchestrator_integration.py:369-375 | Every chunk names one file and it is in the manifest. |
| `Review.CoverNamesAll` | src/omarchy_yolo/orchestrator_integration.py:386-395 | Every file of the manifest is named by a chunk. |
| `Review.ReviewShards` | src/omarchy_yolo/orchestrator_integration.py:331-377 | Every report is the reviewer's answer about that chunk, shown with its own text, files and number, and is filed under its file; it ends early exactly when the reviewer fails on a chunk; no chunk is outside the manifest. |
| `Review.JudgeFile` | src/omarchy_yolo/orchestrator_integration.py:386-414 | A file with one report is judged by it, one with several by the answer about exactly its own reports. |
| `Review.ReviewFiles` | src/omarchy_yolo/orchestrator_integration.py:385-430 | Every file of the manifest is judged so; it ends early exactly when the reviewer fails on a file; coverage is never lost. |
| `Review.Audit` | src/omarchy_yolo/orchestrator_integration.py:377-459 | The answers decide: the first failure of the reviewer raises, the rejections heard make the shard or the file failure with its verdict and findings, and otherwise the result is the answer about all file reports. |
| `Review.HierarchicalFinalReview` | src/omarchy_yolo/orchestrator_integration.py:306-459 | The same over the chunks of the diff, for any reviewer; a synthesis is reached only after every shard and every file was reviewed and no rejection was heard; the outside-manifest and lost-coverage branches are dead. |
| `Review.OwnShards` | src/omarchy_yolo/orchestrator_integration.py:369-375 | With distinct paths the reviews filed under a file are exactly those of its own shards, in order. |
| `Review.PassCoversEveryFile` | src/omarchy_yolo/orchestrator_integration.py:331-459 | If the review reaches its synthesis, every changed file is in the manifest under its own label and its shards without headers are its whole diff; all shard and file reports passed exactly when none rejects silently. |
| `Review.RejectedYetAudited` | src/omarchy_yolo/orchestrator_integration.py:296-300 | On any chunks covering a manifest the review can reach its synthesis although every shard and file report is a failing one. |
| `Locks.NextKeeps` | src/omarchy_yolo/runtime.py:69-98 | Entering, waking, cancelling, unwinding, starting a mutation, its thread ending, the loop of the shielded wait and leaving keep the lock invariant. |
| `Locks.MutualExclusion` | src/omarchy_yolo/runtime.py:69-98 | In every reachable state at most one task holds the lock of a repository. |
| `Locks.EntryStable` | src/omarchy_yolo/runtime.py:72-73 | While a task waits on or holds a repository's lock, no step changes the dictionary entry. |
| `Locks.BodyLeavesAfterThread` | src/omarchy_yolo/util.py:53-72 | No step out of a lock is possible while its task's thread works: that follows from where the shielded loop lets control go, no guard asks for it. |
| `Locks.MutationsNeverOverlap` | src/omarchy_yolo/util.py:43-50 | At most one thread mutates a repository in any reachable state, and its task holds the lock. |
| `Locks.MutationFinishesFirst` | src/omarchy_yolo/util.py:36-72 | Through any number of cancellations and other steps, until the thread itself ends, its task stays in the shielded wait with the lock and nobody else holds it. |
| `Locks.CancellationIsRaised` | src/omarchy_yolo/util.py:57-71 | A cancellation that reached the shielded wait is carried through every step until the helper leaves, and is then raised. |
| `Locks.SomeoneMoves` | src/omarchy_yolo/runtime.py:76-98 | No wakeup is lost: while anyone waits or holds, a task engaged on that key can move. |
| `Locks.CountsAgree` | src/omarchy_yolo/runtime.py:74-90 | The waiter count equals the queue and the active set is exactly the held repositories. |
| `Locks.EntryDropped` | src/omarchy_yolo/runtime.py:95-98 | The end of a hold drops the entry exactly when a count of zero is still present. |
| `Locks.IdleEntryRemains` | src/omarchy_yolo/runtime.py:91-98 | A reachable state has an entry and no task at all: the dictionary need not empty. |
| `Coordinator.ResourceCoordinator.Enter` | src/omarchy_yolo/runtime.py:70-84 | The dictionary updates up to the first await are exactly one enter step; the lock is taken without waiting exactly when asyncio's fast path allows. |
| `Coordinator.ResourceCoordinator.Resume` | src/omarchy_yolo/runtime.py:78-83 | A woken waiter leaves the queue and takes the lock in one step. |
| `Coordinator.ResourceCoordinator.Unwind` | src/omarchy_yolo/runtime.py:90-98 | A cancelled waiter leaves the queue, passes the wakeup on and drops count and entry in one step. |
| `Coordinator.ResourceCoordinator.StartMutation` | src/omarchy_yolo/util.py:36-56 | atomic_to_thread up to its await is one step: the thread runs and the caller is in the shielded wait. |
| `Coordinator.ResourceCoordinator.Recheck` | src/omarchy_yolo/util.py:57-63 | What follows the await is one step: remember a cancellation, and go round again or leave by whether the thread is done. |
| `Coordinator.ResourceCoordinator.Exit` | src/omarchy_yolo/runtime.py:86-98 | Leaving the body releases, wakes the next waiter and drops the entry in one step. |
| `Coordinator.FinishBeforeCancel` | src/omarchy_yolo/util.py:53-72 | Nothing escapes before the inner operation has settled; then a cancellation that arrived replaces its result or error, and only then; and the loop stands where the lock system says. |
| `Coordinator.ShieldIsTheLoop` | src/omarchy_yolo/util.py:53-72 | For every sequence of awaits the steps of the lock system end where the verified loop ends: the system's shielded wait is that loop. |
| `Deadlock.WorkerOrdered` | src/omarchy_yolo/orchestrator_task.py:48-276 | Every worker acquires slot, merge lock, repository lock in this order, gives all back, and waits for no task. |
| `Deadlock.OrchestratorOrdered` | src/omarchy_yolo/orchestrator.py:82-127 | The orchestrator, with any rounds of starting workers and waiting for one to end, follows the order and holds nothing while it waits. |
| `Deadlock.WorkerGuarded` | src/omarchy_yolo/orchestrator_task.py:55-100 | A worker does its attempts with a slot held, and worktrees, branches and integrations with the job's merge lock and the repository lock held as well. |
| `Deadlock.OrchestratorGuarded` | src/omarchy_yolo/orchestrator.py:82-127 | The orchestrator plans and finalizes with a slot held, and prepares, applies and clears up with the repository lock held. |
| `Deadlock.CancelledOrdered` | src/omarchy_yolo/orchestrator.py:136-137 | An exception anywhere leaves the locks held at that point and then may wait for every worker started so far, still in order. |
| `Deadlock.AcceptedResumeOrdered` | src/omarchy_yolo/orchestrator.py:60-80 | The resumed acceptance follows the order. |
| `Deadlock.DeadlockFree` | src/omarchy_yolo/orchestrator_integration.py:43-44 | In every state of the invariant every unfinished task can step or waits, over at most four others, for one that can: no group of tasks is stuck among themselves. |
| `Deadlock.RunsNeverDeadlock` | src/omarchy_yolo/runtime.py:40-98 | Along every run with jobs starting, orchestrators creating workers as they go, tasks stepping and being cancelled anywhere: the same, locks exclusive, at most max_workers slots in use. |
| `Interleaving.Perform` | src/omarchy_yolo/db.py:52-318 | Any write made through the store's methods is the corresponding step. |
| `Worker.ForeignMeanwhile` | src/omarchy_yolo/orchestrator_task.py:145-158 | Writes of other tasks and jobs, and a stop of the job, leave a worker's rows alone and its job live. |
| `WorkerWrites.UpdateAccepted` | src/omarchy_yolo/db.py:107-184 | A task write along the worker's transitions is accepted in every live state and leaves the patched row. |
| `WorkerWrites.StartAccepted` | src/omarchy_yolo/db.py:221-240 | Starting the next attempt is accepted when no stop was seen since the last await. |
| `WorkerWrites.FinishAccepted` | src/omarchy_yolo/db.py:267-318 | Closing the worker's running attempt is accepted. |
| `WorkerLoop.SuccessMarks` | src/omarchy_yolo/orchestrator_task.py:160-258 | An attempt succeeds exactly when its marks are agent, gates, review and integration, in this order, each a success. |
| `WorkerLoop.TaskRunner.PrepareWorktree` | src/omarchy_yolo/orchestrator_task.py:69-109 | Worktree, branch and base commit are stored as prepared, then the event; a recovered branch keeps its name. |
| `WorkerLoop.TaskRunner.Begin` | src/omarchy_yolo/orchestrator_task.py:118-142 | The attempt is counted, recorded with its agent, worktree, branch and log, and announced. |
| `WorkerLoop.TaskRunner.Integrate` | src/omarchy_yolo/orchestrator_integration.py:43-45 | After the locks are taken INTEGRATING is stored before anything else happens. |
| `WorkerLoop.TaskRunner.Judge` | src/omarchy_yolo/orchestrator_task.py:160-205 | After the agent returned: a failed exit or gate closes the attempt as failed, puts the task back with the feedback and logs why; an escape leaves it in flight; otherwise the review decides. |
| `WorkerLoop.TaskRunner.Review` | src/omarchy_yolo/orchestrator_task.py:312-356 | An exception of the diff query escapes, one of a reviewer becomes a verdict; the verdict is the reviewer's; the task stays in review with its attempt. |
| `WorkerLoop.TaskRunner.ReviewAndIntegrate` | src/omarchy_yolo/orchestrator_task.py:207-258 | Work is integrated only after its review passed; the end is a success exactly when review and integration both succeed, and a retry exactly when one of them delivers a failure. |
| `WorkerLoop.TaskRunner.OneAttempt` | src/omarchy_yolo/orchestrator_task.py:113-258 | One attempt gets the next number; for any answers from outside it is a success exactly when agent, gates, review and integration all succeeded, a retry exactly when one of them failed; its row is then passed with return code 0, or failed with the code and text of that failure; every write is accepted. |
| `WorkerLoop.TaskRunner.RunTask` | src/omarchy_yolo/orchestrator_task.py:58-291 | No durable write of a run is refused; attempts are numbered without a gap above all earlier ones, at most max_attempts of them, and each row tells its course; all but the last failed; true comes exactly of a last attempt that succeeded in everything (with its clean-up not cancelled) and leaves the task COMPLETED with that summary, false of max_attempts failures and leaves it FAILED; its writes and those of others meanwhile form a disciplined history. |
| `Numbering.StepOnward` | src/omarchy_yolo/orchestrator_task.py:111-128 | Every write of the store, by workers, users, recovery, resume or settling, loses and renumbers no attempt and numbers a new one above all that were there. |
| `Numbering.DisciplinedParts` | src/omarchy_yolo/orchestrator_task.py:111-128 | A history is disciplined exactly when both its parts are: a run of a worker may be cut by a crash after any write and followed by recovery, resume and another run. |
| `Numbering.AttemptNumbersIncrease` | src/omarchy_yolo/orchestrator_task.py:111-128 | Over the whole life of a task from an empty store, split anywhere, all later attempts are numbered above all earlier ones. |
| `Finalize.Finalizer.RunReview` | src/omarchy_yolo/orchestrator_integration.py:494-515 | The report is what the answers of this cycle's reviewer decide on the diff of HEAD; a passing one covered that whole diff. |
| `Finalize.Finalizer.Cycle` | src/omarchy_yolo/orchestrator_integration.py:469-524 | One cycle runs the gates, then, when they passed, the review, then, when one of them did not pass and it is not the last, the repair; it asks for another exactly after a repair that succeeded. |
| `Finalize.Finalizer.Finalize` | src/omarchy_yolo/orchestrator_integration.py:461-526 | Some cycles fail and are repaired, each on the HEAD the repair before it left; then one ends it: a pass of gates and review on the HEAD it leaves, with the summary of that review, or an error; failed gates or a failed audit end it only after max_final_cycles + 1 gate runs; the error after the loop is dead. |
| `Finalize.Finalizer.FinishJob` | src/omarchy_yolo/orchestrator.py:114-121 | Whatever is accepted, published or only journaled, passed its last gates and a review of its whole diff with nothing touching the branch in between, and carries the summary of that review. |
| `RunJob.Orchestrator.ApplySource` | src/omarchy_yolo/orchestrator.py:249-265 | However it ends, the repository moved only if the phase is durably `applying`; the repository and the result are those of the command-wise specification; with a healthy source and working commands it ends applied or skipped. |
| `RunJob.Orchestrator.ResumeAcceptedJob` | src/omarchy_yolo/orchestrator.py:228-278 | Refuses without any write unless the journaled dossier passes its checks; whatever others write to the store at its awaits, publishes exactly the outcome the repository gave in the row that was accepted; an error leaves the job in acceptance with its row otherwise unchanged; from every state of the invariant with a healthy source it completes. |
| `RunJob.Orchestrator.Journal` | src/omarchy_yolo/orchestrator.py:199-225 | What is journaled is the given HEAD and summary, the intent of the job and the dossier built from the rows as frozen, with writes of others before the freezing and again before the journaling; it can be rebuilt afterwards exactly when no event of the job landed in that second window. |
| `RunJob.Orchestrator.CompleteAcceptedJob` | src/omarchy_yolo/orchestrator.py:199-226 | Whatever others write meanwhile: a job that completes has the commit and summary passed in, and an outcome of not-requested exactly when it was not to be applied; a job that fails after journaling keeps both. |
| `Awaits.ElapsedStays` | src/omarchy_yolo/db.py:72-86 | Whatever others write at an await, a runner finds its job in the phase it left it, and from acceptance on with its row, but for state, stop flag and error, and its dossier unchanged. |
| `RunJob.Orchestrator.EndRun` | src/omarchy_yolo/orchestrator.py:136-197 | The handlers leave accepted work alone but for an event; for ordinary work they succeed exactly as `HandlersSettleTheJob` says, leave the rows of `HandlersStore` and log how it ended. |
| `DossierBuild.EventDigest` | src/omarchy_yolo/provenance.py:44-67 | Digest, kinds, count and last id are those of the entries before the first stop event. |
| `DossierBuild.InputQuotes` | src/omarchy_yolo/provenance.py:140-176 | Which row and column each quoted fact comes from: the job's columns, exactly its tasks and attempts, and its events up to the first stop event. |
| `DossierBuild.LedgerPlaces` | src/omarchy_yolo/db_provenance.py:37-43 | Each quoted entry is an event of the job under its place in the whole ledger, in order. |
| `DossierBuild.LedgerComplete` | src/omarchy_yolo/db_provenance.py:37-43 | Every event of the job has its entry. |
| `DossierBuild.BuildDossier` | src/omarchy_yolo/provenance.py:130-229 | Refuses exactly when a task is not completed; otherwise the text is the dossier of its input, bounded, with its own digest. |
| `DossierBuild.DossierUnique` | src/omarchy_yolo/provenance.py:27-41 | An input has one dossier. |
| `DossierBuild.OrdinaryNoStop` | src/omarchy_yolo/provenance.py:20-24 | Before acceptance the ledger of a job holds no stop event. |
| `DossierBuild.PrefixEnds` | src/omarchy_yolo/provenance.py:57-60 | After the acceptance entry nothing logged later changes the prefix. |
| `DossierBuild.FrozenFacts` | src/omarchy_yolo/provenance.py:140-176 | From acceptance on, the rows and job columns the dossier quotes no longer change. |
| `DossierBuild.RegeneratedInput` | src/omarchy_yolo/provenance.py:130-229 | In every state after acceptance the rebuilt input is the input right before the acceptance. |
| `DossierBuild.RegenerationStable` | src/omarchy_yolo/provenance.py:44-67 | A dossier frozen earlier can be rebuilt afterwards exactly when no event of the job landed between freezing and acceptance. |
| `DossierBuild.RebuiltDossier` | src/omarchy_yolo/provenance.py:44-67 | With no event in between, any later rebuild gives the accepted text and digest to the last character. |

## Left out

- Timestamps, telemetry seconds and `updated_at` columns: no modelled decision reads them.
- The SQL engine, PRAGMAs, migrations, schema contract checks and rows migrated from schema version 3: tables, keys and constraints are modelled, the engine is not.
- Unknown field names and unknown state texts passed to the update methods: patches and states are typed.
- The truncation of event kinds to 128 characters and the bounding of event payloads: payloads of ordinary events are opaque.
- Subprocesses, gates, sandboxes, agent command lines, configuration parsing, RPC, CLI, panel and notifications: foreign effects.
- The daemon's stop and resume dispatch beyond the store writes they make: these are steps of the runs; waiting for a runner is not modelled.
- Fairness of `asyncio`: deadlock freedom says that a task a waiting one depends on can step, not that it eventually does.
- The worker semaphore's internals: `Deadlock.dfy` counts slots, the queue of waiters for a slot is not modelled.
- The recursion limit of the interpreter in `visit`, and the iteration order of Python sets: the model visits dependencies in any order.
- A user switching branches between the checks and the merge of the reconciliation: the model lets the user act between any two commands, and then claims only what `Apply.SourceSafety` says.
- The byte counts behind a Git query's ceiling, and binary metadata beyond its text: a query ends whole, over its ceiling, out of time or failed.
- The wording of most findings and error texts other than those stored in rows.
- The rendering of a dossier's JSON and its preview texts: `DossierBuild.Payload` holds what the text is a function of, besides configuration and version.
- `_plan_job`'s prompt and the parsing of planner output before `validate`.
- Conflict resolution and repair inside `_integrate_task`: the store sees them as one await; the rollback of the worktree is not modelled.
- Choosing agents and reviewers: the choice comes in from outside, with what the chosen one answers.
- Refinement.CrashRefinement: the text in `source_apply_reason` is not claimed, because an interrupted history finds the source already at the commit and says so.
- RunJob.Orchestrator.ResumeAcceptedJob: the user does not move the repository during the call; with moves between any two commands it is the runner of `Apply.dfy`.
- Acceptance.PublicationInvariant: counts the entries the journal writes; `event()` could log the kind `job.accepted` unguarded (db_records.py:158-181), and such an entry is an ordinary event here, neither counted nor a stop event of the digest.
- Deadlock.DeadlockFree: agents, gates and Git calls are assumed to return, as their timeouts ensure.
- Dag.Scheduler.Wait: a handle that returns true is assumed to have left its task COMPLETED, which `WorkerLoop.TaskRunner.RunTask` proves of the worker.
- WorkerLoop.TaskRunner.Await: the foreign writes at an await leave out recovery and settling of the worker's own job, which the program runs only after its workers have ended.
- Finalize.Finalizer.RunReview: the integration worktree is private to the job, so HEAD stays put while gates and reviewers run.
- DossierBuild.BuildDossier: reads job, tasks, attempts and events in one instant; the source reads them with one query each, a moment apart.
