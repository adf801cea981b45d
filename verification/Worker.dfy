/** The attempt loop of a worker: which durable writes it makes in which order, and why the store
    accepts every one of them whatever others do between two awaits. */
module Worker {
  import opened Model
  import opened Store
  import opened Invariant
  import opened Runs

  // ---- what a worker relies on ---------------------------------------------------------

  /** A job whose workers run: a stop leaves it STOPPING with the flag set. */
  predicate JobLive(job: Job) {
    job.phase.Ordinary? && (job.state.Running? || (job.state.Stopping? && job.stopRequested))
  }

  /** The worker's task: its state, its counter, the largest recorded number, its running attempt. */
  ghost predicate Owns(db: DB, j: JobId, t: TaskId, state: TaskState, counter: int, top: int, current: Option<AttemptId>) {
    && j in db.jobs && JobLive(db.jobs[j]) && TaskOf(db, t, j)
    && db.tasks[t].state == state && db.tasks[t].attempts == counter && top <= counter
    && (current.Some? ==> current.value in db.attempts && db.attempts[current.value].task == t)
    && (forall a <- db.attempts :: db.attempts[a].task == t ==>
          db.attempts[a].number <= top && (db.attempts[a].state.Running? <==> current == Some(a)))
  }

  // ---- what others do meanwhile --------------------------------------------------------

  /** Writes that are not the worker's: other tasks and jobs, events, and a stop of its own job. */
  predicate Foreign(db: DB, j: JobId, t: TaskId, s: Step) {
    match s
    case SUpdateJob(k, p) => k != j || p == STOP
    case SUpdateTask(u, _) => u != t
    case SStartAttempt(_, _, u, _, _, _, _, _) => u != t
    case SFinishAttempt(a, _, _, _) => a in db.attempts ==> db.attempts[a].task != t
    case SAddTasks(k, _, _) => k != j
    case SPrepare(k, _) => k != j
    case SMarkApply(k, _) => k != j
    case SPublish(k, _) => k != j
    case SRetry(k) => k != j
    case SSettle(k, _, _, _) => k != j
    case SResume(k) => k != j
    case SRecover => false
    case _ => true
  }

  /** The worker's rows are untouched; its job may have been told to stop. */
  ghost predicate Meanwhile(before: DB, after: DB, j: JobId, t: TaskId) {
    && (j in before.jobs && JobLive(before.jobs[j]) ==> j in after.jobs && JobLive(after.jobs[j]))
    && (t in before.tasks ==> t in after.tasks && after.tasks[t] == before.tasks[t])
    && (forall a <- before.attempts :: before.attempts[a].task == t ==>
          a in after.attempts && after.attempts[a] == before.attempts[a])
    && (forall a <- after.attempts :: after.attempts[a].task == t ==> a in before.attempts && before.attempts[a].task == t)
  }

  lemma OwnsMeanwhile(before: DB, after: DB, j: JobId, t: TaskId, state: TaskState, counter: int, top: int,
                      current: Option<AttemptId>)
    requires Owns(before, j, t, state, counter, top, current) && Meanwhile(before, after, j, t)
    ensures Owns(after, j, t, state, counter, top, current)
  {
  }

  /** The rows of the task after a foreign write. */
  ghost predicate RowsKept(before: DB, after: DB, t: TaskId) {
    && (t in before.tasks ==> t in after.tasks && after.tasks[t] == before.tasks[t])
    && (forall a <- before.attempts :: before.attempts[a].task == t ==>
          a in after.attempts && after.attempts[a] == before.attempts[a])
    && (forall a <- after.attempts :: after.attempts[a].task == t ==> a in before.attempts && before.attempts[a].task == t)
  }

  lemma InsertKeepsRows(db: DB, k: JobId, start: nat, ids: seq<TaskId>, plan: seq<PlannedTask>, i: nat, t: TaskId)
    requires |ids| == |plan| && i <= |plan| && t in db.tasks && InsertTasks(db, k, start, ids, plan, i).Ok?
    ensures var after := InsertTasks(db, k, start, ids, plan, i).value;
      && after.jobs == db.jobs && after.attempts == db.attempts
      && t in after.tasks && after.tasks[t] == db.tasks[t]
    decreases |plan| - i
  {
    if i < |plan| {
      var next := db.(tasks := db.tasks[ids[i] := NewTask(k, start + i + 1, plan[i])]);
      InsertKeepsRows(next, k, start, ids, plan, i + 1, t);
    }
  }

  /** Bulk writes on another job leave the rows of this one alone. */
  lemma BulkKeepsRows(db: DB, after: DB, j: JobId, t: TaskId, k: JobId)
    requires TaskOf(db, t, j) && k != j
    requires forall a <- db.attempts :: db.attempts[a].task == t ==> db.attempts[a].job == j
    requires after.tasks.Keys == db.tasks.Keys && after.attempts.Keys == db.attempts.Keys
    requires forall u <- db.tasks :: db.tasks[u].job != k ==> after.tasks[u] == db.tasks[u]
    requires forall a <- db.attempts :: after.attempts[a].task == db.attempts[a].task
    requires forall a <- db.attempts :: db.attempts[a].job != k ==> after.attempts[a] == db.attempts[a]
    ensures RowsKept(db, after, t)
  {
  }

  lemma RetryForeign(db: DB, j: JobId, t: TaskId, k: JobId)
    requires TaskOf(db, t, j) && k != j && RetryFailedTasks(db, k).Ok?
    requires forall a <- db.attempts :: db.attempts[a].task == t ==> db.attempts[a].job == j
    ensures RowsKept(db, RetryFailedTasks(db, k).value, t)
  {
    BulkKeepsRows(db, RetryFailedTasks(db, k).value, j, t, k);
  }

  lemma SettleForeign(db: DB, j: JobId, t: TaskId, k: JobId, ts: TaskState, ats: AttemptState, summary: string)
    requires TaskOf(db, t, j) && k != j && SettleInflight(db, k, ts, ats, summary).Ok?
    requires forall a <- db.attempts :: db.attempts[a].task == t ==> db.attempts[a].job == j
    ensures RowsKept(db, SettleInflight(db, k, ts, ats, summary).value, t)
  {
    BulkKeepsRows(db, SettleInflight(db, k, ts, ats, summary).value, j, t, k);
  }

  lemma ResumeForeign(db: DB, j: JobId, t: TaskId, k: JobId)
    requires TaskOf(db, t, j) && k != j && PrepareResume(db, k).Ok?
    requires forall a <- db.attempts :: db.attempts[a].task == t ==> db.attempts[a].job == j
    ensures RowsKept(db, PrepareResume(db, k).value, t)
  {
    BulkKeepsRows(db, PrepareResume(db, k).value, j, t, k);
  }

  /** An attempt belongs to the job of its task. */
  lemma AttemptJob(h: string -> string, db: DB, j: JobId, t: TaskId, a: AttemptId)
    requires Inv(h, db) && TaskOf(db, t, j) && a in db.attempts && db.attempts[a].task == t
    ensures db.attempts[a].job == j
  {
    var k := db.attempts[a].job;
    assert k in db.jobs;
    assert SliceOk(h, SliceOf(db, k));
    assert a in SliceOf(db, k).attempts;
    assert t in TasksOf(db, k);
  }

  lemma AttemptsOwned(h: string -> string, db: DB, j: JobId, t: TaskId)
    requires Inv(h, db) && TaskOf(db, t, j)
    ensures forall a <- db.attempts :: db.attempts[a].task == t ==> db.attempts[a].job == j
  {
    forall a | a in db.attempts && db.attempts[a].task == t ensures db.attempts[a].job == j {
      AttemptJob(h, db, j, t, a);
    }
  }

  lemma ForeignKeepsRows(h: string -> string, db: DB, after: DB, j: JobId, t: TaskId, s: Step)
    requires Try(h, db, s) == Ok(after) && TaskOf(db, t, j) && Foreign(db, j, t, s)
    requires forall a <- db.attempts :: db.attempts[a].task == t ==> db.attempts[a].job == j
    ensures RowsKept(db, after, t)
  {
    match s
    case SAddTasks(k, ids, plan) => InsertKeepsRows(db, k, MaxSeq(db, k), ids, plan, 0, t);
    case SRetry(k) => RetryForeign(db, j, t, k);
    case SSettle(k, ts, ats, summary) => SettleForeign(db, j, t, k, ts, ats, summary);
    case SResume(k) => ResumeForeign(db, j, t, k);
    case SUpdateTask(_, _) => OneRowKept(h, db, after, j, t, s);
    case SStartAttempt(_, _, _, _, _, _, _, _) => OneRowKept(h, db, after, j, t, s);
    case SFinishAttempt(_, _, _, _) => OneRowKept(h, db, after, j, t, s);
    case _ => NoRowsWritten(h, db, after, s);
  }

  lemma OneRowKept(h: string -> string, db: DB, after: DB, j: JobId, t: TaskId, s: Step)
    requires Try(h, db, s) == Ok(after) && t in db.tasks && Foreign(db, j, t, s)
    requires s.SUpdateTask? || s.SStartAttempt? || s.SFinishAttempt?
    ensures RowsKept(db, after, t)
  {
  }

  lemma NoRowsWritten(h: string -> string, db: DB, after: DB, s: Step)
    requires Try(h, db, s) == Ok(after)
    requires s.SCreateJob? || s.SEvent? || s.SUpdateJob? || s.SStageDossier? || s.SPrepare? || s.SMarkApply? || s.SPublish?
    ensures after.tasks == db.tasks && after.attempts == db.attempts
  {
  }

  lemma StopKeepsLive(db: DB, j: JobId, k: JobId, p: JobPatch)
    requires j in db.jobs && JobLive(db.jobs[j]) && (k != j || p == STOP) && UpdateJob(db, k, p).Ok?
    ensures j in UpdateJob(db, k, p).value.jobs && JobLive(UpdateJob(db, k, p).value.jobs[j])
  {
  }

  lemma TaskWriteKeepsLive(db: DB, j: JobId, u: TaskId, p: TaskPatch)
    requires j in db.jobs && JobLive(db.jobs[j]) && UpdateTask(db, u, p).Ok?
    ensures j in UpdateTask(db, u, p).value.jobs && UpdateTask(db, u, p).value.jobs[j] == db.jobs[j]
  {
  }

  lemma JournalWriteKeepsJob(h: string -> string, db: DB, after: DB, j: JobId, s: Step)
    requires (s.SPrepare? || s.SMarkApply? || s.SPublish? || s.SResume?) && s.j != j
    requires j in db.jobs && Try(h, db, s) == Ok(after)
    ensures j in after.jobs && after.jobs[j] == db.jobs[j]
  {
  }

  lemma RowWriteKeepsJobs(h: string -> string, db: DB, after: DB, j: JobId, s: Step)
    requires s.SCreateJob? || s.SEvent? || s.SStartAttempt? || s.SFinishAttempt? || s.SStageDossier? || s.SRetry? || s.SSettle?
    requires j in db.jobs && Try(h, db, s) == Ok(after)
    ensures j in after.jobs && after.jobs[j] == db.jobs[j]
  {
  }

  lemma ForeignKeepsJob(h: string -> string, db: DB, after: DB, j: JobId, t: TaskId, s: Step)
    requires Try(h, db, s) == Ok(after) && TaskOf(db, t, j) && j in db.jobs && JobLive(db.jobs[j]) && Foreign(db, j, t, s)
    ensures j in after.jobs && JobLive(after.jobs[j])
  {
    match s
    case SAddTasks(k, ids, plan) => InsertKeepsRows(db, k, MaxSeq(db, k), ids, plan, 0, t);
    case SUpdateJob(k, p) => StopKeepsLive(db, j, k, p);
    case SUpdateTask(u, p) => TaskWriteKeepsLive(db, j, u, p);
    case SPrepare(_, _) => JournalWriteKeepsJob(h, db, after, j, s);
    case SMarkApply(_, _) => JournalWriteKeepsJob(h, db, after, j, s);
    case SPublish(_, _) => JournalWriteKeepsJob(h, db, after, j, s);
    case SResume(_) => JournalWriteKeepsJob(h, db, after, j, s);
    case _ => RowWriteKeepsJobs(h, db, after, j, s);
  }

  lemma ForeignMeanwhile(h: string -> string, db: DB, j: JobId, t: TaskId, s: Step)
    requires Inv(h, db) && TaskOf(db, t, j) && j in db.jobs && JobLive(db.jobs[j]) && Foreign(db, j, t, s)
    ensures Inv(h, Exec(h, db, s)) && Meanwhile(db, Exec(h, db, s), j, t)
  {
    ExecKeeps(h, db, s);
    var r := Try(h, db, s);
    if r.Ok? {
      AttemptsOwned(h, db, j, t);
      ForeignKeepsRows(h, db, r.value, j, t, s);
      ForeignKeepsJob(h, db, r.value, j, t, s);
    }
  }
}
