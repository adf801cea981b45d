/** The durable store on values: one function per public mutation, giving the state after
    COMMIT or the error after ROLLBACK. The class in Database.dfy is proved against these. */
module Store {
  import opened Model
  import opened StateMachine

  datatype DB = DB(
    jobs: map<JobId, Job>, tasks: map<TaskId, Task>, attempts: map<AttemptId, Attempt>,
    dossiers: map<JobId, Dossier>, events: seq<Event>)

  const EmptyDB := DB(map[], map[], map[], map[], [])

  // ---- queries -------------------------------------------------------------------------

  /** Between journaling and publication: phase 'accepted' or 'applying'. */
  predicate InAcceptance(job: Job) {
    job.phase.Accepted? || job.phase.Applying?
  }

  predicate RunningAttempt(db: DB, a: AttemptId) {
    a in db.attempts && db.attempts[a].state.Running?
  }

  predicate HasRunningAttempt(db: DB, t: TaskId) {
    exists a <- db.attempts :: db.attempts[a].task == t && RunningAttempt(db, a)
  }

  predicate TaskOf(db: DB, t: TaskId, j: JobId) {
    t in db.tasks && db.tasks[t].job == j
  }

  function TaskStates(db: DB, j: JobId): set<TaskState> {
    set t | t in db.tasks && TaskOf(db, t, j) :: db.tasks[t].state
  }

  predicate RunningOf(db: DB, a: AttemptId, j: JobId) {
    RunningAttempt(db, a) && db.attempts[a].job == j && TaskOf(db, db.attempts[a].task, j)
  }

  /** The state of the owning task of every attempt of the job that is still running. */
  function RunningOwners(db: DB, j: JobId): set<TaskState> {
    set a | a in db.attempts && RunningOf(db, a, j) :: db.tasks[db.attempts[a].task].state
  }

  /** What _validate_snapshot_locked checks before a commit. */
  predicate SnapshotOk(db: DB, j: JobId)
    requires j in db.jobs
  {
    ValidJobSnapshot(db.jobs[j].state, TaskStates(db, j), db.jobs[j].stopRequested,
                     RunningOwners(db, j), Some(db.jobs[j].phase))
  }

  function Commit(db: DB, j: JobId): Result<DB>
    requires j in db.jobs
  {
    if SnapshotOk(db, j) then Ok(db) else Err(StateTransitionError)
  }

  predicate DigestMatches(h: string -> string, content: string, sha: string) {
    |sha| == 64 && h(content) == sha
  }

  function Log(db: DB, j: JobId, kind: EventKind): DB {
    db.(events := db.events + [Event(j, None, kind)])
  }

  /** The seq value add_tasks continues from: COALESCE(MAX(seq), 0). */
  ghost function MaxSeq(db: DB, j: JobId): nat {
    MaxOf(set t | t in db.tasks && TaskOf(db, t, j) :: db.tasks[t].seqNo)
  }

  ghost function MaxOf(s: set<nat>): (m: nat)
    ensures forall x <- s :: x <= m
    ensures m == 0 || m in s
  {
    if s == {} then 0 else
    var x :| x in s;
    var m := MaxOf(s - {x});
    assert s == (s - {x}) + {x};
    if x > m then x else m
  }

  // ---- records -------------------------------------------------------------------------

  function NewJob(repo: string, goal: string, baseBranch: string, baseCommit: Model.Commit,
                  integrationBranch: string, autoApply: bool): Job {
    Job(repo, goal, baseBranch, baseCommit, integrationBranch, "", autoApply,
        JobState.Queued, false, "", "", "", Ordinary, NotRequested, Unset, "")
  }

  /** create_job: new_id is the argument id, json_dumps of goal and repo the argument payload. */
  function CreateJob(db: DB, id: JobId, repo: string, goal: string, baseBranch: string,
                     baseCommit: Model.Commit, integrationBranch: string, autoApply: bool,
                     payload: string): Result<DB> {
    if id in db.jobs then Err(IntegrityError)
    else
      var row := NewJob(repo, goal, baseBranch, baseCommit, integrationBranch, autoApply);
      Commit(Log(db.(jobs := db.jobs[id := row]), id, Other("job.created", payload)), id)
  }

  function NewTask(j: JobId, seqNo: nat, p: PlannedTask): Task {
    Task(j, seqNo, p.logicalId, p.title, p.description, p.dependsOn, p.acceptance, p.preferredAgent,
         TaskState.Pending, 0, "", "", "", "", "")
  }

  /** The INSERT of rows k.. of the plan, one by one, stopping at the first key violation. */
  ghost function InsertTasks(db: DB, j: JobId, start: nat, ids: seq<TaskId>, plan: seq<PlannedTask>,
                             k: nat): Result<DB>
    requires |ids| == |plan| && k <= |plan|
    decreases |plan| - k
  {
    if k == |plan| then Ok(db)
    else if ids[k] in db.tasks || LogicalIdTaken(db, j, plan[k].logicalId) then Err(IntegrityError)
    else InsertTasks(db.(tasks := db.tasks[ids[k] := NewTask(j, start + k + 1, plan[k])]),
                     j, start, ids, plan, k + 1)
  }

  predicate LogicalIdTaken(db: DB, j: JobId, logicalId: string) {
    exists t <- db.tasks :: TaskOf(db, t, j) && db.tasks[t].logicalId == logicalId
  }

  ghost function AddTasks(db: DB, j: JobId, ids: seq<TaskId>, plan: seq<PlannedTask>): Result<DB>
    requires |ids| == |plan|
  {
    if j !in db.jobs then Err(KeyError)
    else if !db.jobs[j].state.Queued? && !db.jobs[j].state.Planning? then Err(StateTransitionError)
    else if !db.jobs[j].phase.Ordinary? then Err(StateTransitionError)
    else
      var r := InsertTasks(db, j, MaxSeq(db, j), ids, plan, 0);
      if r.Err? then r else if j in r.value.jobs then Commit(r.value, j) else r
  }

  /** event(): an ordinary ledger entry. Its job must exist (foreign key). */
  function LogEvent(db: DB, j: JobId, t: Option<TaskId>, name: string, payload: string): Result<DB> {
    if j !in db.jobs then Err(IntegrityError)
    else Ok(db.(events := db.events + [Event(j, t, Other(name, payload))]))
  }

  // ---- update_job, update_task, start_attempt, finish_attempt --------------------------

  datatype JobPatch = JobPatch(
    state: Option<JobState> := None, integrationPath: Option<string> := None,
    stopRequested: Option<bool> := None, finalSummary: Option<string> := None,
    error: Option<string> := None, autoApply: Option<bool> := None)
  {
    predicate Empty() {
      state.None? && stopRequested.None? && !Frozen()
    }
    /** Names a field that is immutable once acceptance has begun. */
    predicate Frozen() {
      integrationPath.Some? || finalSummary.Some? || error.Some? || autoApply.Some?
    }
    function On(job: Job): Job {
      job.(state := state.GetOr(job.state), integrationPath := integrationPath.GetOr(job.integrationPath),
           stopRequested := stopRequested.GetOr(job.stopRequested),
           finalSummary := finalSummary.GetOr(job.finalSummary), error := error.GetOr(job.error),
           autoApply := autoApply.GetOr(job.autoApply))
    }
  }

  /** The one write of request_stop. */
  const STOP := JobPatch(stopRequested := Some(true), state := Some(JobState.Stopping))

  function UpdateJob(db: DB, j: JobId, p: JobPatch): Result<DB> {
    if p.Empty() then Ok(db)
    else if j !in db.jobs then Err(KeyError)
    else
      var job := db.jobs[j];
      var target := p.state.GetOr(job.state);
      if !job.phase.Ordinary? && p.Frozen() then Err(StateTransitionError)
      else if target !in JobTransitions(job.state) then Err(StateTransitionError)
      else if target.Completed? && !job.state.Completed? then Err(StateTransitionError)
      else Commit(db.(jobs := db.jobs[j := p.On(job)]), j)
  }

  datatype TaskPatch = TaskPatch(
    state: Option<TaskState> := None, attempts: Option<int> := None, branch: Option<string> := None,
    worktree: Option<string> := None, baseCommit: Option<string> := None,
    lastError: Option<string> := None, resultSummary: Option<string> := None,
    preferredAgent: Option<Option<string>> := None)
  {
    function On(task: Task): Task {
      task.(state := state.GetOr(task.state), attempts := attempts.GetOr(task.attempts),
            branch := branch.GetOr(task.branch), worktree := worktree.GetOr(task.worktree),
            baseCommit := baseCommit.GetOr(task.baseCommit), lastError := lastError.GetOr(task.lastError),
            resultSummary := resultSummary.GetOr(task.resultSummary),
            preferredAgent := preferredAgent.GetOr(task.preferredAgent))
    }
  }

  /** A task entering flight pulls a queued or planning job to RUNNING. */
  function Activate(job: Job, target: TaskState): Job {
    if Inflight(target) && (job.state.Queued? || job.state.Planning?)
    then job.(state := JobState.Running) else job
  }

  function UpdateTask(db: DB, t: TaskId, p: TaskPatch): Result<DB> {
    if p == TaskPatch() then Ok(db)
    else if t !in db.tasks then Err(KeyError)
    else
      var task := db.tasks[t];
      var target := p.state.GetOr(task.state);
      if target !in TaskTransitions(task.state) then Err(StateTransitionError)
      else if task.job !in db.jobs then Err(KeyError)
      else
        var job := db.jobs[task.job];
        if !job.phase.Ordinary? then Err(StateTransitionError)
        else if target.Completed? && !task.state.Completed? && HasRunningAttempt(db, t)
        then Err(StateTransitionError)
        else Commit(db.(jobs := db.jobs[task.job := Activate(job, target)],
                        tasks := db.tasks[t := p.On(task)]), task.job)
  }

  predicate NumberTaken(db: DB, t: TaskId, number: int) {
    exists a <- db.attempts :: db.attempts[a].task == t && db.attempts[a].number == number
  }

  function StartAttempt(db: DB, id: AttemptId, j: JobId, t: TaskId, number: int, agent: string,
                        worktree: string, branch: string, logPath: string): Result<DB> {
    if t !in db.tasks || db.tasks[t].job !in db.jobs then Err(KeyError)
    else if db.tasks[t].job != j then Err(OwnershipError)
    else if !db.jobs[j].state.Running? then Err(StateTransitionError)
    else if !db.tasks[t].state.Running? then Err(StateTransitionError)
    else if !db.jobs[j].phase.Ordinary? then Err(StateTransitionError)
    else if HasRunningAttempt(db, t) then Err(StateTransitionError)
    else if id in db.attempts || NumberTaken(db, t, number) then Err(IntegrityError)
    else
      var row := Attempt(j, t, number, agent, worktree, branch, logPath, AttemptState.Running, None, "");
      Commit(db.(attempts := db.attempts[id := row]), j)
  }

  function FinishAttempt(db: DB, a: AttemptId, target: AttemptState, returncode: Option<int>,
                         summary: string): Result<DB> {
    if a !in db.attempts then Err(KeyError)
    else
      var row := db.attempts[a];
      if !row.state.Running? then Err(StateTransitionError)
      else if target.Running? then Err(StateTransitionError)
      else if target !in AttemptTransitions(row.state) then Err(StateTransitionError)
      else if row.job !in db.jobs then Err(KeyError)
      else
        var row' := row.(state := target, returncode := returncode, summary := summary);
        Commit(db.(attempts := db.attempts[a := row']), row.job)
  }

  // ---- acceptance journal --------------------------------------------------------------

  function StageDossier(h: string -> string, db: DB, j: JobId, schemaVersion: int, sha: string,
                        content: string): Result<DB> {
    if schemaVersion < 1 then Err(ValueError)
    else if !DigestMatches(h, content, sha) then Err(StateTransitionError)
    else if j !in db.jobs then Err(KeyError)
    else if db.jobs[j].state.Completed? || !db.jobs[j].phase.Ordinary? then Err(StateTransitionError)
    else Ok(db.(dossiers := db.dossiers[j := Dossier(schemaVersion, sha, content, false)]))
  }

  /** The arguments of prepare_accepted_job. An intent that is neither of the two known texts is None. */
  datatype Acceptance = Acceptance(commit: Model.Commit, finalSummary: string, intent: Option<Intent>,
                                   schemaVersion: int, sha: string, content: string)

  predicate SameAcceptance(db: DB, j: JobId, acc: Acceptance)
    requires j in db.jobs && acc.intent.Some?
  {
    var job := db.jobs[j];
    && job.acceptedCommit == acc.commit
    && job.intent == acc.intent.value
    && job.finalSummary == acc.finalSummary
    && j in db.dossiers
    && db.dossiers[j].schemaVersion == acc.schemaVersion
    && db.dossiers[j].sha == acc.sha
    && db.dossiers[j].content == acc.content
  }

  function AcceptedRow(job: Job, acc: Acceptance): Job
    requires acc.intent.Some?
  {
    job.(acceptedCommit := acc.commit, phase := Accepted, intent := acc.intent.value, outcome := Unset,
         reason := "", finalSummary := acc.finalSummary, error := "", stopRequested := false)
  }

  function PrepareAccepted(h: string -> string, db: DB, j: JobId, acc: Acceptance): Result<DB> {
    if acc.intent.None? then Err(ValueError)
    else if acc.commit == "" || |acc.commit| > 128 then Err(ValueError)
    else if acc.schemaVersion < 1 then Err(ValueError)
    else if !DigestMatches(h, acc.content, acc.sha) then Err(StateTransitionError)
    else if j !in db.jobs then Err(KeyError)
    else
      var job := db.jobs[j];
      if job.phase.Accepted? || job.phase.Applying? then
        if SameAcceptance(db, j, acc) then Ok(db) else Err(StateTransitionError)
      else if !job.phase.Ordinary? then Err(StateTransitionError)
      else if !job.state.Running? && !job.state.Stopping? then Err(StateTransitionError)
      else
        var db' := db.(jobs := db.jobs[j := AcceptedRow(job, acc)],
                       dossiers := db.dossiers[j := Dossier(acc.schemaVersion, acc.sha, acc.content, false)]);
        Commit(Log(db', j, JobAccepted(acc.commit, acc.intent.value, acc.sha)), j)
  }

  function MarkApplyStarted(db: DB, j: JobId, commit: Model.Commit): Result<DB> {
    if j !in db.jobs then Err(KeyError)
    else
      var job := db.jobs[j];
      if job.acceptedCommit != commit then Err(StateTransitionError)
      else if !job.intent.Requested? then Err(StateTransitionError)
      else if job.phase.Applying? then Ok(db)
      else if !job.phase.Accepted? then Err(StateTransitionError)
      else Commit(Log(db.(jobs := db.jobs[j := job.(phase := Applying)]), j, ApplyStarted(commit)), j)
  }

  /** The arguments of publish_completed_job. An outcome outside the three known texts is Unset. */
  datatype Publication = Publication(schemaVersion: int, sha: string, finalSummary: string,
                                     outcome: Outcome, reason: string)

  function PublishedRow(job: Job, p: Publication): Job {
    job.(state := JobState.Completed, stopRequested := false, finalSummary := p.finalSummary, error := "",
         phase := Published, outcome := p.outcome, reason := Tail(p.reason, 4000))
  }

  function OutcomeEvents(j: JobId, job: Job, p: Publication): seq<Event> {
    if p.outcome.Applied? then [Event(j, None, JobApplied(job.baseBranch, job.acceptedCommit))]
    else if p.outcome.Skipped? then [Event(j, None, ApplySkipped(Tail(p.reason, 4000)))]
    else []
  }

  function DossierEvent(j: JobId, job: Job, p: Publication): Event {
    Event(j, None, DossierCreated(p.sha, p.schemaVersion, job.acceptedCommit))
  }

  function CompletedEvent(j: JobId, job: Job, p: Publication): Event {
    Event(j, None, JobCompleted(p.finalSummary, job.integrationBranch, p.sha, job.acceptedCommit, p.outcome))
  }

  function PublicationEvents(j: JobId, job: Job, p: Publication): seq<Event> {
    [DossierEvent(j, job, p)] + OutcomeEvents(j, job, p) + [CompletedEvent(j, job, p)]
  }

  function Publish(h: string -> string, db: DB, j: JobId, p: Publication): Result<DB> {
    if p.outcome.Unset? then Err(ValueError)
    else if j !in db.jobs then Err(KeyError)
    else if j !in db.dossiers then Err(StateTransitionError)
    else
      var job, d := db.jobs[j], db.dossiers[j];
      if d.schemaVersion != p.schemaVersion || d.sha != p.sha || !DigestMatches(h, d.content, p.sha)
      then Err(StateTransitionError)
      else if job.state.Completed? then
        if d.published && job.phase.Published? && job.outcome == p.outcome then Ok(db)
        else Err(StateTransitionError)
      else if job.intent.NotRequested? && !(job.phase.Accepted? && p.outcome.NotApplied?)
      then Err(StateTransitionError)
      else if job.intent.Requested? && !(job.phase.Applying? && (p.outcome.Applied? || p.outcome.Skipped?))
      then Err(StateTransitionError)
      else if job.acceptedCommit == "" then Err(StateTransitionError)
      else if JobState.Completed !in JobTransitions(job.state) then Err(StateTransitionError)
      else if d.published then Err(StateTransitionError)
      else
        var db' := db.(jobs := db.jobs[j := PublishedRow(job, p)],
                       dossiers := db.dossiers[j := d.(published := true)],
                       events := db.events + PublicationEvents(j, job, p));
        Commit(db', j)
  }

  // ---- recovery ------------------------------------------------------------------------

  function OrElse(s: string, default: string): string {
    if s == "" then default else s
  }

  function ClosedAttempt(row: Attempt, state: AttemptState, summary: string): Attempt {
    if row.state.Running? then row.(state := state, summary := OrElse(row.summary, summary)) else row
  }

  /** UPDATE attempts SET state = ... WHERE job_id IN js AND state = 'running'. */
  function CloseAttempts(db: DB, js: set<JobId>, state: AttemptState, summary: string): DB {
    db.(attempts := map a | a in db.attempts ::
          if db.attempts[a].job in js then ClosedAttempt(db.attempts[a], state, summary) else db.attempts[a])
  }

  function SettledTask(row: Task, state: TaskState, lastError: string): Task {
    if Inflight(row.state) then row.(state := state, lastError := OrElse(lastError, row.lastError)) else row
  }

  /** UPDATE tasks SET state = ... WHERE job_id IN js AND state in flight. */
  function SettleTasks(db: DB, js: set<JobId>, state: TaskState, lastError: string): DB {
    db.(tasks := map t | t in db.tasks ::
          if db.tasks[t].job in js then SettledTask(db.tasks[t], state, lastError) else db.tasks[t])
  }

  function ResetTask(row: Task): Task {
    if row.state.Completed? then row else row.(state := TaskState.Pending)
  }

  /** UPDATE tasks SET state = 'pending' WHERE job_id = j AND state != 'completed'. */
  function ResetTasks(db: DB, j: JobId): DB {
    db.(tasks := map t | t in db.tasks :: if db.tasks[t].job == j then ResetTask(db.tasks[t]) else db.tasks[t])
  }

  function RetryFailedTasks(db: DB, j: JobId): Result<DB> {
    if j !in db.jobs then Err(KeyError)
    else if !db.jobs[j].phase.Ordinary? then Err(StateTransitionError)
    else if db.jobs[j].state !in {JobState.Failed, JobState.Stopped, JobState.Queued}
    then Err(StateTransitionError)
    else Commit(ResetTasks(db, j), j)
  }

  function SettleInflight(db: DB, j: JobId, taskState: TaskState, attemptState: AttemptState,
                          summary: string): Result<DB> {
    if taskState !in {TaskState.Pending, TaskState.Failed, TaskState.Stopped} then Err(ValueError)
    else if attemptState !in {AttemptState.Cancelled, AttemptState.Failed} then Err(ValueError)
    else if j !in db.jobs then Err(KeyError)
    else if !db.jobs[j].phase.Ordinary? then Err(StateTransitionError)
    else
      var bounded := Tail(summary, 8000);
      Commit(SettleTasks(CloseAttempts(db, {j}, attemptState, bounded), {j}, taskState, bounded), j)
  }

  /** The transaction of prepare_resume; the event job.resumed follows it on its own. */
  function PrepareResume(db: DB, j: JobId): Result<DB> {
    if j !in db.jobs then Err(KeyError)
    else
      var job := db.jobs[j];
      if !job.phase.Ordinary? then Err(StateTransitionError)
      else if !job.state.Stopped? && !job.state.Failed? then Err(StateTransitionError)
      else
        var db' := ResetTasks(CloseAttempts(db, {j}, AttemptState.Cancelled, "cancelled before explicit resume"), j);
        var row := job.(state := JobState.Queued, stopRequested := false, error := "");
        Commit(db'.(jobs := db'.jobs[j := row]), j)
  }

  predicate Terminal(s: JobState) {
    s.Stopped? || s.Completed? || s.Failed?
  }

  function AcceptedIds(db: DB): set<JobId> {
    set j | j in db.jobs && !Terminal(db.jobs[j].state) && InAcceptance(db.jobs[j])
  }

  function ActiveIds(db: DB): set<JobId> {
    set j | j in db.jobs && !Terminal(db.jobs[j].state) && j !in AcceptedIds(db)
         && !db.jobs[j].stopRequested && !db.jobs[j].state.Stopping?
  }

  function StoppedIds(db: DB): set<JobId> {
    set j | j in db.jobs && !Terminal(db.jobs[j].state) && j !in AcceptedIds(db) && j !in ActiveIds(db)
  }

  function RecoveredRow(job: Job, accepted: bool, active: bool, stopped: bool): Job {
    if accepted then job.(stopRequested := false, error := "")
    else if active then job.(state := JobState.Queued, stopRequested := false)
    else if stopped then job.(state := JobState.Stopped, stopRequested := true)
    else job
  }

  function RecoveredJob(db: DB, j: JobId): Job
    requires j in db.jobs
  {
    RecoveredRow(db.jobs[j], j in AcceptedIds(db), j in ActiveIds(db), j in StoppedIds(db))
  }

  /** The two bulk updates recovery makes for the interrupted jobs of one kind. */
  function Interrupted(db: DB, js: set<JobId>, state: TaskState, summary: string): DB {
    CloseAttempts(SettleTasks(db, js, state, ""), js, AttemptState.Cancelled, summary)
  }

  const RESTARTED := "interrupted by daemon restart"
  const STOPPED := "interrupted while stop was requested"

  function RecoveredRows(db: DB): DB {
    var db1 := Interrupted(db, ActiveIds(db), TaskState.Pending, RESTARTED);
    var db2 := Interrupted(db1, StoppedIds(db), TaskState.Stopped, STOPPED);
    db2.(jobs := map j | j in db.jobs :: RecoveredJob(db, j))
  }

  /** A transition recovery would need that the tables do not allow. */
  predicate RecoveryIllegal(db: DB) {
    || (exists j <- AcceptedIds(db) :: !db.jobs[j].state.Running? && !db.jobs[j].state.Stopping?)
    || (exists j <- ActiveIds(db) :: JobState.Queued !in JobTransitions(db.jobs[j].state))
    || (exists j <- StoppedIds(db) ::
          !db.jobs[j].state.Stopping? && JobState.Stopping !in JobTransitions(db.jobs[j].state))
  }

  predicate AllSnapshotsOk(db: DB, js: set<JobId>) {
    forall j <- js :: j in db.jobs && SnapshotOk(db, j)
  }

  /** The transaction of recover_incomplete; the events job.recovered* follow it on their own. */
  function RecoverIncomplete(db: DB): Result<DB> {
    if RecoveryIllegal(db) then Err(StateTransitionError)
    else if AllSnapshotsOk(RecoveredRows(db), AcceptedIds(db) + ActiveIds(db) + StoppedIds(db))
    then Ok(RecoveredRows(db))
    else Err(StateTransitionError)
  }

  // ---- runs ----------------------------------------------------------------------------

  /** One atomic write of the store. */
  datatype Step =
    | SCreateJob(id: JobId, repo: string, goal: string, baseBranch: string, baseCommit: Model.Commit,
                 integrationBranch: string, autoApply: bool, payload: string)
    | SAddTasks(j: JobId, ids: seq<TaskId>, plan: seq<PlannedTask>)
    | SEvent(j: JobId, t: Option<TaskId>, name: string, payload: string)
    | SUpdateJob(j: JobId, jobPatch: JobPatch)
    | SUpdateTask(task: TaskId, taskPatch: TaskPatch)
    | SStartAttempt(a: AttemptId, j: JobId, task: TaskId, number: int, agent: string, worktree: string,
                    branch: string, logPath: string)
    | SFinishAttempt(a: AttemptId, target: AttemptState, returncode: Option<int>, summary: string)
    | SStageDossier(j: JobId, schemaVersion: int, sha: string, content: string)
    | SPrepare(j: JobId, acc: Acceptance)
    | SMarkApply(j: JobId, commit: Model.Commit)
    | SPublish(j: JobId, pub: Publication)
    | SRetry(j: JobId)
    | SSettle(j: JobId, taskState: TaskState, attemptState: AttemptState, summary: string)
    | SResume(j: JobId)
    | SRecover

  ghost function Try(h: string -> string, db: DB, s: Step): Result<DB> {
    match s
    case SCreateJob(id, repo, goal, bb, bc, ib, auto, payload) =>
      CreateJob(db, id, repo, goal, bb, bc, ib, auto, payload)
    case SAddTasks(j, ids, plan) => if |ids| == |plan| then AddTasks(db, j, ids, plan) else Err(ValueError)
    case SEvent(j, t, name, payload) => LogEvent(db, j, t, name, payload)
    case SUpdateJob(j, p) => UpdateJob(db, j, p)
    case SUpdateTask(t, p) => UpdateTask(db, t, p)
    case SStartAttempt(a, j, t, number, agent, worktree, branch, logPath) =>
      StartAttempt(db, a, j, t, number, agent, worktree, branch, logPath)
    case SFinishAttempt(a, target, rc, summary) => FinishAttempt(db, a, target, rc, summary)
    case SStageDossier(j, v, sha, content) => StageDossier(h, db, j, v, sha, content)
    case SPrepare(j, acc) => PrepareAccepted(h, db, j, acc)
    case SMarkApply(j, commit) => MarkApplyStarted(db, j, commit)
    case SPublish(j, p) => Publish(h, db, j, p)
    case SRetry(j) => RetryFailedTasks(db, j)
    case SSettle(j, ts, as_, summary) => SettleInflight(db, j, ts, as_, summary)
    case SResume(j) => PrepareResume(db, j)
    case SRecover => RecoverIncomplete(db)
  }

  /** A rejected write leaves the state as it was. */
  ghost function Exec(h: string -> string, db: DB, s: Step): DB {
    var r := Try(h, db, s);
    if r.Ok? then r.value else db
  }

  ghost function Run(h: string -> string, db: DB, steps: seq<Step>): DB
    decreases |steps|
  {
    if steps == [] then db else Run(h, Exec(h, db, steps[0]), steps[1..])
  }
}
