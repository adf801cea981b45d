/** What each write stores, column by column, and what it leaves alone; said of the rows before and after,
    not of the functions that compute them. */
module Columns {
  import opened Model
  import opened StateMachine
  import opened Store
  import opened Invariant
  import opened Preservation
  import opened Recovery
  import opened Worker
  import opened WorkerWrites

  /** All tables but the attempts are as they were, and of those only this row may differ. */
  ghost predicate OnlyAttempt(x: DB, y: DB, a: AttemptId) {
    && y.jobs == x.jobs && y.tasks == x.tasks && y.dossiers == x.dossiers && y.events == x.events
    && y.attempts.Keys == x.attempts.Keys + {a}
    && forall b <- x.attempts :: b != a ==> y.attempts[b] == x.attempts[b]
  }

  ghost predicate OnlyTaskAndJob(x: DB, y: DB, t: TaskId, j: JobId) {
    && y.attempts == x.attempts && y.dossiers == x.dossiers && y.events == x.events
    && y.tasks.Keys == x.tasks.Keys && (forall u <- x.tasks :: u != t ==> y.tasks[u] == x.tasks[u])
    && y.jobs.Keys == x.jobs.Keys && (forall k <- x.jobs :: k != j ==> y.jobs[k] == x.jobs[k])
  }

  ghost predicate OnlyJobRow(x: DB, y: DB, j: JobId) {
    && y.attempts == x.attempts && y.tasks == x.tasks
    && y.jobs.Keys == x.jobs.Keys + {j} && (forall k <- x.jobs :: k != j ==> y.jobs[k] == x.jobs[k])
  }

  ghost predicate OnlyDossier(x: DB, y: DB, j: JobId) {
    y.dossiers.Keys == x.dossiers.Keys + {j} && forall k <- x.dossiers :: k != j ==> y.dossiers[k] == x.dossiers[k]
  }

  /** A column is what the patch says, or what it was. */
  predicate Patched<T(==)>(patch: Option<T>, x: T, y: T) {
    if patch.Some? then y == patch.value else y == x
  }

  // ---- attempts ------------------------------------------------------------------------

  predicate SameAttemptKey(x: Attempt, y: Attempt) {
    && y.job == x.job && y.task == x.task && y.number == x.number && y.agent == x.agent
    && y.worktree == x.worktree && y.branch == x.branch && y.logPath == x.logPath
  }

  /** finish_attempt stores the state, return code and summary it was given. */
  lemma FinishAttemptStores(db: DB, a: AttemptId, target: AttemptState, returncode: Option<int>, summary: string, after: DB)
    requires FinishAttempt(db, a, target, returncode, summary) == Ok(after)
    ensures a in db.attempts && db.attempts[a].state.Running? && !target.Running? && OnlyAttempt(db, after, a)
    ensures var x, y := db.attempts[a], after.attempts[a];
      SameAttemptKey(x, y) && y.state == target && y.returncode == returncode && y.summary == summary
  {
  }

  /** It does so for exactly the running attempts and the terminal states. */
  lemma FinishAttemptAccepts(h: string -> string, db: DB, a: AttemptId, target: AttemptState, returncode: Option<int>,
                             summary: string)
    requires Inv(h, db)
    ensures FinishAttempt(db, a, target, returncode, summary).Ok?
            <==> a in db.attempts && db.attempts[a].state.Running? && !target.Running?
    ensures a !in db.attempts ==> FinishAttempt(db, a, target, returncode, summary) == Err(KeyError)
  {
    if a in db.attempts && db.attempts[a].state.Running? && !target.Running? {
      var j := db.attempts[a].job;
      var row := db.attempts[a].(state := target, returncode := returncode, summary := summary);
      assert j in db.jobs;
      assert SliceOk(h, SliceOf(db, j));
      PutAttemptSlice(db, j, a, row);
      ClosedAttemptAccepted(h, SliceOf(db, j), a, row);
      SnapshotByRows(PutAttempt(db, a, row), j);
    }
  }

  lemma StartAttemptStores(db: DB, a: AttemptId, j: JobId, t: TaskId, number: int, agent: string, worktree: string,
                           branch: string, logPath: string, after: DB)
    requires StartAttempt(db, a, j, t, number, agent, worktree, branch, logPath) == Ok(after)
    ensures a !in db.attempts && TaskOf(db, t, j) && OnlyAttempt(db, after, a)
    ensures forall b <- db.attempts :: db.attempts[b].task == t ==>
              !db.attempts[b].state.Running? && db.attempts[b].number != number
    ensures var y := after.attempts[a];
      && y.job == j && y.task == t && y.number == number && y.agent == agent && y.worktree == worktree
      && y.branch == branch && y.logPath == logPath
      && y.state.Running? && y.returncode.None? && y.summary == ""
  {
    assert !HasRunningAttempt(db, t) && !NumberTaken(db, t, number);
  }

  /** A new attempt needs a running job and task, no other running attempt of the task, an unused id and
      an unused number; nothing else. */
  lemma StartAttemptAccepts(h: string -> string, db: DB, a: AttemptId, j: JobId, t: TaskId, number: int, agent: string,
                            worktree: string, branch: string, logPath: string)
    requires Inv(h, db)
    ensures StartAttempt(db, a, j, t, number, agent, worktree, branch, logPath).Ok?
            <==> && TaskOf(db, t, j) && j in db.jobs && db.jobs[j].state.Running? && db.jobs[j].phase.Ordinary?
                 && db.tasks[t].state.Running? && a !in db.attempts
                 && forall b <- db.attempts :: db.attempts[b].task == t ==>
                      !db.attempts[b].state.Running? && db.attempts[b].number != number
  {
    if TaskOf(db, t, j) && j in db.jobs && db.jobs[j].state.Running? && db.jobs[j].phase.Ordinary?
       && db.tasks[t].state.Running? && a !in db.attempts {
      var row := Attempt(j, t, number, agent, worktree, branch, logPath, AttemptState.Running, None, "");
      assert SliceOk(h, SliceOf(db, j));
      assert t in SliceOf(db, j).tasks;
      PutAttemptSlice(db, j, a, row);
      NewAttemptAccepted(h, SliceOf(db, j), a, row);
      SnapshotByRows(PutAttempt(db, a, row), j);
      RunningByRows(db, t);
    }
  }

  lemma RunningByRows(db: DB, t: TaskId)
    ensures HasRunningAttempt(db, t) <==> exists b <- db.attempts :: db.attempts[b].task == t && db.attempts[b].state.Running?
  {
    forall b | b in db.attempts && db.attempts[b].task == t && db.attempts[b].state.Running? ensures HasRunningAttempt(db, t) {
      assert RunningAttempt(db, b);
    }
  }

  // ---- tasks ---------------------------------------------------------------------------

  predicate SameTaskKey(x: Task, y: Task) {
    && y.job == x.job && y.seqNo == x.seqNo && y.logicalId == x.logicalId && y.title == x.title
    && y.description == x.description && y.dependencies == x.dependencies && y.acceptance == x.acceptance
  }

  lemma UpdateTaskStores(db: DB, t: TaskId, p: TaskPatch, after: DB)
    requires UpdateTask(db, t, p) == Ok(after) && t in db.tasks
    ensures db.tasks[t].job in db.jobs ==> OnlyTaskAndJob(db, after, t, db.tasks[t].job)
    ensures t in after.tasks
    ensures var x, y := db.tasks[t], after.tasks[t];
      && SameTaskKey(x, y)
      && Patched(p.state, x.state, y.state) && Patched(p.attempts, x.attempts, y.attempts)
      && Patched(p.branch, x.branch, y.branch) && Patched(p.worktree, x.worktree, y.worktree)
      && Patched(p.baseCommit, x.baseCommit, y.baseCommit) && Patched(p.lastError, x.lastError, y.lastError)
      && Patched(p.resultSummary, x.resultSummary, y.resultSummary)
      && Patched(p.preferredAgent, x.preferredAgent, y.preferredAgent)
  {
  }

  /** The one thing a task write does to its job. */
  lemma UpdateTaskActivates(db: DB, t: TaskId, p: TaskPatch, after: DB)
    requires UpdateTask(db, t, p) == Ok(after) && t in db.tasks && p != TaskPatch()
    ensures var j := db.tasks[t].job;
      && j in db.jobs && j in after.jobs
      && var pulled := Inflight(after.tasks[t].state) && (db.jobs[j].state.Queued? || db.jobs[j].state.Planning?);
      && (if pulled then after.jobs[j].state.Running? else after.jobs[j].state == db.jobs[j].state)
      && after.jobs[j].(state := db.jobs[j].state) == db.jobs[j]
  {
  }

  /** A task write needs ordinary work, a transition, and for a task entering flight a job that is not over,
      for one leaving it no running attempt. */
  ghost predicate TaskWriteFits(db: DB, t: TaskId, target: TaskState) {
    && t in db.tasks && db.tasks[t].job in db.jobs
    && var job := db.jobs[db.tasks[t].job];
    && job.phase.Ordinary? && target in TaskTransitions(db.tasks[t].state)
    && (if Inflight(target) then !Terminal(job.state)
        else forall a <- db.attempts :: db.attempts[a].task == t ==> !db.attempts[a].state.Running?)
  }

  lemma PatchedSliceAccepted(h: string -> string, x: Slice, t: TaskId, row: Task, y: Slice)
    requires SliceOk(h, x) && x.job.phase.Ordinary? && t in x.tasks
    requires y == x.(job := Activate(x.job, row.state), tasks := x.tasks[t := row])
    ensures ValidatorAccepts(y) <==>
              if Inflight(row.state) then !Terminal(x.job.state)
              else forall a <- x.attempts :: x.attempts[a].task == t ==> !x.attempts[a].state.Running?
  {
    assert y.tasks[t] == row;
    if !Inflight(row.state) && forall a <- x.attempts :: x.attempts[a].task == t ==> !x.attempts[a].state.Running? {
      forall a | a in y.attempts && y.attempts[a].state.Running? && y.attempts[a].task in y.tasks
        ensures AttemptFits(y.job, y.tasks[y.attempts[a].task].state)
      {
        assert y.attempts[a].task != t;
      }
    }
    if !Inflight(row.state) && ValidatorAccepts(y) {
      forall a | a in x.attempts && x.attempts[a].task == t ensures !x.attempts[a].state.Running? {
        assert a in y.attempts && y.attempts[a].task in y.tasks;
      }
    }
  }

  lemma OwnAttempts(h: string -> string, db: DB, j: JobId, t: TaskId)
    requires Inv(h, db) && TaskOf(db, t, j) && j in db.jobs
    ensures (forall a <- db.attempts :: db.attempts[a].task == t ==> !db.attempts[a].state.Running?)
            <==> forall a <- AttemptsOf(db, j) :: AttemptsOf(db, j)[a].task == t ==> !AttemptsOf(db, j)[a].state.Running?
  {
    AttemptsOwned(h, db, j, t);
    var own := AttemptsOf(db, j);
    assert forall a :: a in own ==> a in db.attempts && own[a] == db.attempts[a];
    assert forall a <- db.attempts :: db.attempts[a].task == t ==> a in own;
  }

  /** Where the patched row would be committed. */
  ghost function WithTask(db: DB, t: TaskId, row: Task): DB
    requires t in db.tasks && db.tasks[t].job in db.jobs
  {
    PutTask(PutJob(db, db.tasks[t].job, Activate(db.jobs[db.tasks[t].job], row.state)), t, row)
  }

  lemma UpdateTaskCommits(db: DB, t: TaskId, p: TaskPatch)
    requires t in db.tasks && db.tasks[t].job in db.jobs && p != TaskPatch()
    ensures var target := p.state.GetOr(db.tasks[t].state);
      UpdateTask(db, t, p).Ok? <==>
        && target in TaskTransitions(db.tasks[t].state) && db.jobs[db.tasks[t].job].phase.Ordinary?
        && !(target.Completed? && !db.tasks[t].state.Completed? && HasRunningAttempt(db, t))
        && SnapshotOk(WithTask(db, t, p.On(db.tasks[t])), db.tasks[t].job)
  {
    var j, row := db.tasks[t].job, p.On(db.tasks[t]);
    assert WithTask(db, t, row)
        == db.(jobs := db.jobs[j := Activate(db.jobs[j], row.state)], tasks := db.tasks[t := row]);
  }

  lemma UpdateTaskAccepts(h: string -> string, db: DB, t: TaskId, p: TaskPatch)
    requires Inv(h, db) && p != TaskPatch()
    ensures UpdateTask(db, t, p).Ok? <==>
              t in db.tasks && TaskWriteFits(db, t, p.state.GetOr(db.tasks[t].state))
  {
    if t in db.tasks && db.tasks[t].job in db.jobs {
      var j, row := db.tasks[t].job, p.On(db.tasks[t]);
      UpdateTaskCommits(db, t, p);
      RunningByRows(db, t);
      if db.jobs[j].phase.Ordinary? { CommitFits(h, db, j, t, row); }
    }
  }

  lemma CommitFits(h: string -> string, db: DB, j: JobId, t: TaskId, row: Task)
    requires Inv(h, db) && TaskOf(db, t, j) && j in db.jobs && db.jobs[j].phase.Ordinary? && row.job == j
    ensures SnapshotOk(WithTask(db, t, row), j) <==>
              if Inflight(row.state) then !Terminal(db.jobs[j].state)
              else forall a <- db.attempts :: db.attempts[a].task == t ==> !db.attempts[a].state.Running?
  {
    var db1 := PutJob(db, j, Activate(db.jobs[j], row.state));
    assert SliceOk(h, SliceOf(db, j));
    PutJobSlice(db, j, Activate(db.jobs[j], row.state));
    PutTaskSlice(db1, j, t, row);
    SnapshotByRows(WithTask(db, t, row), j);
    PatchedSliceAccepted(h, SliceOf(db, j), t, row, SliceOf(WithTask(db, t, row), j));
    OwnAttempts(h, db, j, t);
  }

  /** The row add_tasks inserts for one planned task. */
  predicate Planned(y: Task, j: JobId, seqNo: nat, p: PlannedTask) {
    && y.job == j && y.seqNo == seqNo && y.logicalId == p.logicalId && y.title == p.title
    && y.description == p.description && y.dependencies == p.dependsOn && y.acceptance == p.acceptance
    && y.preferredAgent == p.preferredAgent && y.state.Pending? && y.attempts == 0
    && y.branch == "" && y.worktree == "" && y.baseCommit == "" && y.lastError == "" && y.resultSummary == ""
  }

  lemma {:induction false} InsertStores(db: DB, j: JobId, start: nat, ids: seq<TaskId>, plan: seq<PlannedTask>, k: nat,
                                        after: DB)
    requires |ids| == |plan| && k <= |plan| && InsertTasks(db, j, start, ids, plan, k) == Ok(after)
    ensures after == db.(tasks := after.tasks)
    ensures after.tasks.Keys == db.tasks.Keys + set i | k <= i < |ids| :: ids[i]
    ensures forall t <- db.tasks :: after.tasks[t] == db.tasks[t]
    ensures forall i :: k <= i < |plan| ==> ids[i] !in db.tasks && Planned(after.tasks[ids[i]], j, start + i + 1, plan[i])
    decreases |plan| - k
  {
    if k < |plan| {
      var row := NewTask(j, start + k + 1, plan[k]);
      var next := db.(tasks := db.tasks[ids[k] := row]);
      InsertStores(next, j, start, ids, plan, k + 1, after);
      assert next.tasks[ids[k]] == row;
    }
  }

  /** add_tasks inserts exactly the plan, numbered on from the largest number the job has. */
  lemma AddTasksStores(db: DB, j: JobId, ids: seq<TaskId>, plan: seq<PlannedTask>, after: DB)
    requires |ids| == |plan| && AddTasks(db, j, ids, plan) == Ok(after)
    ensures after == db.(tasks := after.tasks)
    ensures after.tasks.Keys == db.tasks.Keys + set i | 0 <= i < |ids| :: ids[i]
    ensures forall t <- db.tasks :: after.tasks[t] == db.tasks[t]
    ensures forall i :: 0 <= i < |plan| ==>
              ids[i] !in db.tasks && Planned(after.tasks[ids[i]], j, MaxSeq(db, j) + i + 1, plan[i])
  {
    InsertStores(db, j, MaxSeq(db, j), ids, plan, 0, after);
  }

  // ---- jobs ----------------------------------------------------------------------------

  lemma CreateJobStores(db: DB, id: JobId, repo: string, goal: string, baseBranch: string, baseCommit: Model.Commit,
                        integrationBranch: string, autoApply: bool, payload: string, after: DB)
    requires CreateJob(db, id, repo, goal, baseBranch, baseCommit, integrationBranch, autoApply, payload) == Ok(after)
    ensures id !in db.jobs && OnlyJobRow(db, after, id) && after.dossiers == db.dossiers
    ensures after.events == db.events + [Event(id, None, Other("job.created", payload))]
    ensures var y := after.jobs[id];
      && y.repo == repo && y.goal == goal && y.baseBranch == baseBranch && y.baseCommit == baseCommit
      && y.integrationBranch == integrationBranch && y.integrationPath == "" && y.autoApply == autoApply
      && y.state.Queued? && !y.stopRequested && y.finalSummary == "" && y.error == "" && y.acceptedCommit == ""
      && y.phase.Ordinary? && y.intent.NotRequested? && y.outcome.Unset? && y.reason == ""
  {
  }

  /** The columns no write but create_job sets. */
  predicate SameJobKey(x: Job, y: Job) {
    && y.repo == x.repo && y.goal == x.goal && y.baseBranch == x.baseBranch && y.baseCommit == x.baseCommit
    && y.integrationBranch == x.integrationBranch
  }

  predicate SameJournal(x: Job, y: Job) {
    && y.acceptedCommit == x.acceptedCommit && y.phase == x.phase && y.intent == x.intent
    && y.outcome == x.outcome && y.reason == x.reason
  }

  lemma UpdateJobStores(db: DB, j: JobId, p: JobPatch, after: DB)
    requires UpdateJob(db, j, p) == Ok(after) && j in db.jobs
    ensures OnlyJobRow(db, after, j) && after.dossiers == db.dossiers && after.events == db.events
    ensures var x, y := db.jobs[j], after.jobs[j];
      && SameJobKey(x, y) && SameJournal(x, y)
      && Patched(p.state, x.state, y.state) && Patched(p.integrationPath, x.integrationPath, y.integrationPath)
      && Patched(p.stopRequested, x.stopRequested, y.stopRequested)
      && Patched(p.finalSummary, x.finalSummary, y.finalSummary) && Patched(p.error, x.error, y.error)
      && Patched(p.autoApply, x.autoApply, y.autoApply)
  {
  }

  // ---- the acceptance journal ----------------------------------------------------------

  lemma StageDossierStores(h: string -> string, db: DB, j: JobId, v: int, sha: string, content: string, after: DB)
    requires StageDossier(h, db, j, v, sha, content) == Ok(after)
    ensures after == db.(dossiers := after.dossiers) && OnlyDossier(db, after, j)
    ensures var d := after.dossiers[j]; d.schemaVersion == v && d.sha == sha && d.content == content && !d.published
  {
  }

  lemma PrepareStores(h: string -> string, db: DB, j: JobId, acc: Acceptance, after: DB)
    requires PrepareAccepted(h, db, j, acc) == Ok(after) && j in db.jobs && db.jobs[j].phase.Ordinary?
    ensures acc.intent.Some? && OnlyJobRow(db, after, j) && OnlyDossier(db, after, j)
    ensures var x, y := db.jobs[j], after.jobs[j];
      && SameJobKey(x, y) && y.integrationPath == x.integrationPath && y.autoApply == x.autoApply && y.state == x.state
      && y.acceptedCommit == acc.commit && y.phase.Accepted? && y.intent == acc.intent.value && y.outcome.Unset?
      && y.reason == "" && y.finalSummary == acc.finalSummary && y.error == "" && !y.stopRequested
    ensures var d := after.dossiers[j];
      d.schemaVersion == acc.schemaVersion && d.sha == acc.sha && d.content == acc.content && !d.published
    ensures after.events == db.events + [Event(j, None, JobAccepted(acc.commit, acc.intent.value, acc.sha))]
  {
  }

  lemma MarkApplyStores(db: DB, j: JobId, commit: Model.Commit, after: DB)
    requires MarkApplyStarted(db, j, commit) == Ok(after) && j in db.jobs && db.jobs[j].phase.Accepted?
    ensures OnlyJobRow(db, after, j) && after.dossiers == db.dossiers
    ensures after.jobs[j].phase.Applying? && after.jobs[j].(phase := Accepted) == db.jobs[j]
    ensures commit == db.jobs[j].acceptedCommit && db.jobs[j].intent.Requested?
    ensures after.events == db.events + [Event(j, None, ApplyStarted(commit))]
  {
  }

  lemma PublishStores(h: string -> string, db: DB, j: JobId, p: Publication, after: DB)
    requires Publish(h, db, j, p) == Ok(after) && j in db.jobs && !db.jobs[j].state.Completed?
    ensures j in db.dossiers && OnlyJobRow(db, after, j) && OnlyDossier(db, after, j)
    ensures var x, y := db.jobs[j], after.jobs[j];
      && SameJobKey(x, y) && y.integrationPath == x.integrationPath && y.autoApply == x.autoApply
      && y.acceptedCommit == x.acceptedCommit && y.intent == x.intent
      && y.state.Completed? && !y.stopRequested && y.finalSummary == p.finalSummary && y.error == ""
      && y.phase.Published? && y.outcome == p.outcome && y.reason == Tail(p.reason, 4000)
    ensures after.dossiers[j].published && after.dossiers[j].(published := false) == db.dossiers[j].(published := false)
    ensures var x, last := db.jobs[j], |after.events| - 1;
      && |after.events| == |db.events| + (if p.outcome.NotApplied? then 2 else 3) && db.events <= after.events
      && after.events[|db.events|] == Event(j, None, DossierCreated(p.sha, p.schemaVersion, x.acceptedCommit))
      && after.events[last]
         == Event(j, None, JobCompleted(p.finalSummary, x.integrationBranch, p.sha, x.acceptedCommit, p.outcome))
      && (p.outcome.Applied? ==>
            after.events[|db.events| + 1] == Event(j, None, JobApplied(x.baseBranch, x.acceptedCommit)))
      && (p.outcome.Skipped? ==>
            after.events[|db.events| + 1] == Event(j, None, ApplySkipped(Tail(p.reason, 4000))))
  {
  }

  // ---- bulk writes ---------------------------------------------------------------------

  /** A running attempt is closed in this state, keeping its own summary unless that is blank. */
  predicate Closed(x: Attempt, y: Attempt, state: AttemptState, text: string) {
    && SameAttemptKey(x, y) && y.returncode == x.returncode
    && (if x.state.Running? then y.state == state && y.summary == (if x.summary == "" then text else x.summary)
        else y.state == x.state && y.summary == x.summary)
  }

  /** A task in flight is moved to this state; its error becomes the text, unless that is blank. */
  predicate Moved(x: Task, y: Task, state: TaskState, text: string) {
    if x.state.Running? || x.state.Reviewing? || x.state.Integrating?
    then y == x.(state := y.state, lastError := y.lastError) && y.state == state
         && y.lastError == (if text == "" then x.lastError else text)
    else y == x
  }

  /** A task that is not completed is set free, and nothing else of it changes. */
  predicate Freed(x: Task, y: Task) {
    if x.state.Completed? then y == x else y.state.Pending? && y.(state := x.state) == x
  }

  ghost predicate SameKeysAll(x: DB, y: DB) {
    y.tasks.Keys == x.tasks.Keys && y.attempts.Keys == x.attempts.Keys && y.jobs.Keys == x.jobs.Keys
  }

  lemma SettleStores(db: DB, j: JobId, ts: TaskState, ats: AttemptState, summary: string, after: DB)
    requires SettleInflight(db, j, ts, ats, summary) == Ok(after)
    ensures SameKeysAll(db, after) && after.jobs == db.jobs && after.dossiers == db.dossiers && after.events == db.events
    ensures var text := Tail(summary, 8000);
      && (forall a <- db.attempts ::
            if db.attempts[a].job == j then Closed(db.attempts[a], after.attempts[a], ats, text)
            else after.attempts[a] == db.attempts[a])
      && (forall t <- db.tasks ::
            if db.tasks[t].job == j then Moved(db.tasks[t], after.tasks[t], ts, text) else after.tasks[t] == db.tasks[t])
  {
  }

  lemma RetryStores(db: DB, j: JobId, after: DB)
    requires RetryFailedTasks(db, j) == Ok(after)
    ensures after == db.(tasks := after.tasks) && SameKeysAll(db, after)
    ensures forall t <- db.tasks ::
              if db.tasks[t].job == j then Freed(db.tasks[t], after.tasks[t]) else after.tasks[t] == db.tasks[t]
  {
  }

  lemma ResumeStores(db: DB, j: JobId, after: DB)
    requires PrepareResume(db, j) == Ok(after)
    ensures j in db.jobs && SameKeysAll(db, after) && after.dossiers == db.dossiers && after.events == db.events
    ensures forall k <- db.jobs :: k != j ==> after.jobs[k] == db.jobs[k]
    ensures var x, y := db.jobs[j], after.jobs[j];
      && y.state.Queued? && !y.stopRequested && y.error == ""
      && y.(state := x.state, stopRequested := x.stopRequested, error := x.error) == x
    ensures forall a <- db.attempts ::
              if db.attempts[a].job == j
              then Closed(db.attempts[a], after.attempts[a], AttemptState.Cancelled, "cancelled before explicit resume")
              else after.attempts[a] == db.attempts[a]
    ensures forall t <- db.tasks ::
              if db.tasks[t].job == j then Freed(db.tasks[t], after.tasks[t]) else after.tasks[t] == db.tasks[t]
  {
  }

  /** The jobs recovery queues again, and those it stops. */
  predicate Requeues(job: Job) {
    !Terminal(job.state) && !InAcceptance(job) && !job.stopRequested && !job.state.Stopping?
  }

  predicate StopsIt(job: Job) {
    !Terminal(job.state) && !InAcceptance(job) && (job.stopRequested || job.state.Stopping?)
  }

  predicate RecoveredJobRow(x: Job, y: Job) {
    if Requeues(x) then y.state.Queued? && !y.stopRequested && y.(state := x.state, stopRequested := x.stopRequested) == x
    else if StopsIt(x) then y.state.Stopped? && y.stopRequested && y.(state := x.state, stopRequested := x.stopRequested) == x
    else if !Terminal(x.state) then
      !y.stopRequested && y.error == "" && y.(stopRequested := x.stopRequested, error := x.error) == x
    else y == x
  }

  lemma RecoverJobs(db: DB)
    ensures RecoveredRows(db).jobs.Keys == db.jobs.Keys
    ensures forall k <- db.jobs :: RecoveredJobRow(db.jobs[k], RecoveredRows(db).jobs[k])
    ensures RecoveredRows(db).dossiers == db.dossiers && RecoveredRows(db).events == db.events
  {
    forall k | k in db.jobs ensures RecoveredJobRow(db.jobs[k], RecoveredRows(db).jobs[k]) {
      assert RecoveredRows(db).jobs[k] == RecoveredJob(db, k);
    }
  }

  /** What recovery makes of a row below a job. */
  predicate RecoveredTaskRow(job: Job, x: Task, y: Task) {
    if Requeues(job) then Moved(x, y, TaskState.Pending, "")
    else if StopsIt(job) then Moved(x, y, TaskState.Stopped, "")
    else y == x
  }

  predicate RecoveredAttemptRow(job: Job, x: Attempt, y: Attempt) {
    if Requeues(job) then Closed(x, y, AttemptState.Cancelled, "interrupted by daemon restart")
    else if StopsIt(job) then Closed(x, y, AttemptState.Cancelled, "interrupted while stop was requested")
    else y == x
  }

  lemma RecoverStores(db: DB)
    requires Owned(db)
    ensures forall j <- db.jobs ::
              && TasksOf(RecoveredRows(db), j).Keys == TasksOf(db, j).Keys
              && AttemptsOf(RecoveredRows(db), j).Keys == AttemptsOf(db, j).Keys
              && (forall t <- TasksOf(db, j) ::
                    RecoveredTaskRow(db.jobs[j], TasksOf(db, j)[t], TasksOf(RecoveredRows(db), j)[t]))
              && (forall a <- AttemptsOf(db, j) ::
                    RecoveredAttemptRow(db.jobs[j], AttemptsOf(db, j)[a], AttemptsOf(RecoveredRows(db), j)[a]))
  {
    forall j | j in db.jobs
      ensures TasksOf(RecoveredRows(db), j).Keys == TasksOf(db, j).Keys
      ensures AttemptsOf(RecoveredRows(db), j).Keys == AttemptsOf(db, j).Keys
      ensures forall t <- TasksOf(db, j) ::
                RecoveredTaskRow(db.jobs[j], TasksOf(db, j)[t], TasksOf(RecoveredRows(db), j)[t])
      ensures forall a <- AttemptsOf(db, j) ::
                RecoveredAttemptRow(db.jobs[j], AttemptsOf(db, j)[a], AttemptsOf(RecoveredRows(db), j)[a])
    {
      RecoveredSlice(db, j);
      RecoverRowsOf(db, j);
    }
  }

  lemma RecoverRowsOf(db: DB, j: JobId)
    requires j in db.jobs && Owned(db)
    ensures var y := Recovered(db, j);
      && y.tasks.Keys == TasksOf(db, j).Keys && y.attempts.Keys == AttemptsOf(db, j).Keys
      && (forall t <- TasksOf(db, j) :: RecoveredTaskRow(db.jobs[j], TasksOf(db, j)[t], y.tasks[t]))
      && (forall a <- AttemptsOf(db, j) :: RecoveredAttemptRow(db.jobs[j], AttemptsOf(db, j)[a], y.attempts[a]))
  {
  }
}
