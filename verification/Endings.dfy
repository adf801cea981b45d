/** Why the handlers that end a run always find a transition: along the program's own writes the stop flag
    and the state of a job agree, and while its runner lives nothing else ends the job. */
module Endings {
  import opened Model
  import opened Store
  import opened Invariant
  import opened Preservation
  import opened Recovery
  import opened Runs
  import opened Acceptance
  import opened Worker
  import opened Columns
  import Apply
  import Dag
  import WorkerWrites

  const PLANNING := JobPatch(state := Some(JobState.Planning))
  const RUNNING := JobPatch(state := Some(JobState.Running))

  /** The patches of update_job in run_job before its end, and that of request_stop. */
  predicate RunPatch(p: JobPatch) {
    p == JobPatch(integrationPath := p.integrationPath) || p == PLANNING || p == RUNNING || p == STOP
  }

  /** The patches that end a run, or a job without one: a run that is not stopped is queued again. */
  predicate EndPatch(row: Job, p: JobPatch) {
    || p == JobPatch(state := Some(JobState.Failed), error := p.error)
    || p == JobPatch(state := Some(JobState.Stopped))
    || (p == JobPatch(state := Some(JobState.Queued)) && !row.stopRequested)
  }

  /** The program calls update_job with these patches only; its other writes are free. */
  predicate ProgramWrite(db: DB, s: Step) {
    s.SUpdateJob? && s.j in db.jobs ==> RunPatch(s.jobPatch) || EndPatch(db.jobs[s.j], s.jobPatch)
  }

  /** While the runner of j lives and its handlers have not been reached: nobody ends job j, and recovery
      only happens at the start of the daemon. */
  predicate DuringRun(db: DB, j: JobId, s: Step) {
    ProgramWrite(db, s) && !s.SRecover? && (s.SUpdateJob? && s.j == j ==> RunPatch(s.jobPatch))
  }

  ghost predicate ProgramRun(h: string -> string, db: DB, steps: seq<Step>)
    decreases |steps|
  {
    steps == [] || (ProgramWrite(db, steps[0]) && ProgramRun(h, Exec(h, db, steps[0]), steps[1..]))
  }

  ghost predicate LiveRun(h: string -> string, db: DB, j: JobId, steps: seq<Step>)
    decreases |steps|
  {
    steps == [] || (DuringRun(db, j, steps[0]) && LiveRun(h, Exec(h, db, steps[0]), j, steps[1..]))
  }

  // ---- flag and state agree ------------------------------------------------------------

  predicate Agreed(row: Job) {
    row.phase.Ordinary? ==>
      && (row.state.Queued? || row.state.Planning? || row.state.Running? ==> !row.stopRequested)
      && (row.state.Stopping? ==> row.stopRequested)
  }

  predicate AllAgreed(db: DB) {
    forall j <- db.jobs :: Agreed(db.jobs[j])
  }

  lemma UpdateAgrees(db: DB, after: DB, j: JobId, p: JobPatch)
    requires AllAgreed(db) && ProgramWrite(db, SUpdateJob(j, p)) && UpdateJob(db, j, p) == Ok(after)
    ensures AllAgreed(after)
  {
  }

  lemma TaskUpdateAgrees(db: DB, after: DB, t: TaskId, p: TaskPatch)
    requires AllAgreed(db) && UpdateTask(db, t, p) == Ok(after)
    ensures AllAgreed(after)
  {
  }

  lemma RecoverAgrees(db: DB, after: DB)
    requires AllAgreed(db) && RecoverIncomplete(db) == Ok(after)
    ensures AllAgreed(after)
  {
    forall j | j in after.jobs ensures Agreed(after.jobs[j]) {
      assert after.jobs[j] == RecoveredJob(db, j);
    }
  }

  /** Rows of jobs that are new, requeued or past acceptance. */
  lemma JournalAgrees(h: string -> string, db: DB, after: DB, s: Step)
    requires s.SCreateJob? || s.SResume? || s.SPrepare? || s.SMarkApply? || s.SPublish?
    requires AllAgreed(db) && Try(h, db, s) == Ok(after)
    ensures AllAgreed(after)
  {
  }

  lemma RowsAgree(h: string -> string, db: DB, after: DB, s: Step)
    requires s.SEvent? || s.SStartAttempt? || s.SFinishAttempt? || s.SStageDossier? || s.SRetry? || s.SSettle?
    requires AllAgreed(db) && Try(h, db, s) == Ok(after)
    ensures AllAgreed(after)
  {
  }

  lemma StepAgrees(h: string -> string, db: DB, s: Step)
    requires AllAgreed(db) && ProgramWrite(db, s)
    ensures AllAgreed(Exec(h, db, s))
  {
    var r := Try(h, db, s);
    if r.Ok? { WriteAgrees(h, db, r.value, s); }
  }

  lemma WriteAgrees(h: string -> string, db: DB, after: DB, s: Step)
    requires AllAgreed(db) && ProgramWrite(db, s) && Try(h, db, s) == Ok(after)
    ensures AllAgreed(after)
  {
    match s
    case SUpdateJob(j, p) => UpdateAgrees(db, after, j, p);
    case SUpdateTask(t, p) => TaskUpdateAgrees(db, after, t, p);
    case SRecover => RecoverAgrees(db, after);
    case SAddTasks(j, ids, plan) => Apply.InsertKeepsJobs(db, j, MaxSeq(db, j), ids, plan, 0);
    case SCreateJob(_, _, _, _, _, _, _, _) => JournalAgrees(h, db, after, s);
    case SResume(_) => JournalAgrees(h, db, after, s);
    case SPrepare(_, _) => JournalAgrees(h, db, after, s);
    case SMarkApply(_, _) => JournalAgrees(h, db, after, s);
    case SPublish(_, _) => JournalAgrees(h, db, after, s);
    case _ => RowsAgree(h, db, after, s);
  }

  lemma {:induction false} RunAgrees(h: string -> string, db: DB, steps: seq<Step>)
    requires AllAgreed(db) && ProgramRun(h, db, steps)
    ensures AllAgreed(Run(h, db, steps))
    decreases |steps|
  {
    if steps != [] {
      StepAgrees(h, db, steps[0]);
      RunAgrees(h, Exec(h, db, steps[0]), steps[1..]);
    }
  }

  // ---- nothing else ends the job -------------------------------------------------------

  /** Past acceptance, or neither STOPPED nor FAILED. */
  predicate Unended(db: DB, j: JobId) {
    j in db.jobs && (db.jobs[j].phase.Ordinary? ==> !Terminal(db.jobs[j].state))
  }

  lemma UpdateUnended(db: DB, after: DB, j: JobId, k: JobId, p: JobPatch)
    requires Unended(db, j) && (k == j ==> RunPatch(p)) && UpdateJob(db, k, p) == Ok(after)
    ensures Unended(after, j)
  {
  }

  lemma TaskUpdateUnended(db: DB, after: DB, j: JobId, t: TaskId, p: TaskPatch)
    requires Unended(db, j) && UpdateTask(db, t, p) == Ok(after)
    ensures Unended(after, j)
  {
  }

  lemma JournalUnended(h: string -> string, db: DB, after: DB, j: JobId, s: Step)
    requires s.SCreateJob? || s.SResume? || s.SPrepare? || s.SMarkApply? || s.SPublish?
    requires Unended(db, j) && Try(h, db, s) == Ok(after)
    ensures Unended(after, j)
  {
  }

  lemma RowsUnended(h: string -> string, db: DB, after: DB, j: JobId, s: Step)
    requires s.SEvent? || s.SStartAttempt? || s.SFinishAttempt? || s.SStageDossier? || s.SRetry? || s.SSettle?
    requires Unended(db, j) && Try(h, db, s) == Ok(after)
    ensures Unended(after, j)
  {
  }

  lemma WriteUnended(h: string -> string, db: DB, after: DB, j: JobId, s: Step)
    requires Unended(db, j) && DuringRun(db, j, s) && Try(h, db, s) == Ok(after)
    ensures Unended(after, j)
  {
    match s
    case SUpdateJob(k, p) => UpdateUnended(db, after, j, k, p);
    case SUpdateTask(t, p) => TaskUpdateUnended(db, after, j, t, p);
    case SAddTasks(k, ids, plan) => Apply.InsertKeepsJobs(db, k, MaxSeq(db, k), ids, plan, 0);
    case SCreateJob(_, _, _, _, _, _, _, _) => JournalUnended(h, db, after, j, s);
    case SResume(_) => JournalUnended(h, db, after, j, s);
    case SPrepare(_, _) => JournalUnended(h, db, after, j, s);
    case SMarkApply(_, _) => JournalUnended(h, db, after, j, s);
    case SPublish(_, _) => JournalUnended(h, db, after, j, s);
    case _ => RowsUnended(h, db, after, j, s);
  }

  lemma {:induction false} LiveRunStays(h: string -> string, db: DB, j: JobId, steps: seq<Step>)
    requires AllAgreed(db) && Unended(db, j) && LiveRun(h, db, j, steps)
    ensures AllAgreed(Run(h, db, steps)) && Unended(Run(h, db, steps), j)
    decreases |steps|
  {
    if steps != [] {
      StepAgrees(h, db, steps[0]);
      var r := Try(h, db, steps[0]);
      if r.Ok? { WriteUnended(h, db, r.value, j, steps[0]); }
      LiveRunStays(h, Exec(h, db, steps[0]), j, steps[1..]);
    }
  }

  // ---- the handlers --------------------------------------------------------------------

  lemma LiveFits(row: Job, cancelled: bool)
    requires Agreed(row) && row.phase.Ordinary? && !Terminal(row.state)
    ensures HandlerFits(row, cancelled)
  {
  }

  /** After any history of the program's writes, from the start of a run on a queued job and through
      whatever happens while it lives: the handlers' writes are accepted, for a cancellation and for an
      error, as long as the job is not accepted. */
  lemma HandlersAlwaysSucceed(h: string -> string, before: seq<Step>, during: seq<Step>, j: JobId, cancelled: bool,
                              error: string)
    requires ProgramRun(h, EmptyDB, before)
    requires var start := Run(h, EmptyDB, before);
      j in start.jobs && start.jobs[j].state.Queued? && LiveRun(h, start, j, during)
    ensures var db := Run(h, Run(h, EmptyDB, before), during);
      j in db.jobs && (db.jobs[j].phase.Ordinary? ==> HandlerWrites(db, j, cancelled, error).Ok?)
  {
    var start := Run(h, EmptyDB, before);
    var db := Run(h, start, during);
    RunAgrees(h, EmptyDB, before);
    LiveRunStays(h, start, j, during);
    EmptyOk(h);
    RunKeeps(h, EmptyDB, before);
    RunKeeps(h, start, during);
    if db.jobs[j].phase.Ordinary? {
      LiveFits(db.jobs[j], cancelled);
      HandlersSettleTheJob(h, db, j, cancelled, error);
    }
  }

  /** What the end of a run leaves, row by row. Work in flight is failed by an error, stopped by a stop, and
      otherwise free to be taken up again; the job is in the state that goes with it. */
  ghost predicate EndedRows(x: DB, y: DB, j: JobId, cancelled: bool, error: string)
    requires j in x.jobs
  {
    var stopped := x.jobs[j].stopRequested;
    var text := Tail(if !cancelled then "orchestrator failure: " + error
                     else if stopped then "stopped by user request" else "orchestrator interrupted", 8000);
    && SameKeysAll(x, y) && y.dossiers == x.dossiers
    && (forall k <- x.jobs :: k != j ==> y.jobs[k] == x.jobs[k])
    && y.jobs[j].(state := x.jobs[j].state, error := x.jobs[j].error) == x.jobs[j]
    && y.jobs[j].state == (if !cancelled then JobState.Failed else if stopped then JobState.Stopped else JobState.Queued)
    && y.jobs[j].error == (if !cancelled then error else x.jobs[j].error)
    && (forall t <- x.tasks ::
          if x.tasks[t].job == j
          then Moved(x.tasks[t], y.tasks[t], if !cancelled then TaskState.Failed
                                             else if stopped then TaskState.Stopped else TaskState.Pending, text)
          else y.tasks[t] == x.tasks[t])
    && (forall a <- x.attempts ::
          if x.attempts[a].job == j
          then Closed(x.attempts[a], y.attempts[a], if cancelled then AttemptState.Cancelled else AttemptState.Failed, text)
          else y.attempts[a] == x.attempts[a])
  }

  lemma SettledThenPatched(db: DB, j: JobId, ts: TaskState, ats: AttemptState, text: string, p: JobPatch, mid: DB, after: DB)
    requires j in db.jobs && SettleInflight(db, j, ts, ats, text) == Ok(mid) && UpdateJob(mid, j, p) == Ok(after)
    ensures mid.jobs == db.jobs && OnlyJobRow(mid, after, j) && after.dossiers == db.dossiers
    ensures p.Empty() || after.jobs[j] == p.On(db.jobs[j])
    ensures SameKeysAll(db, after) && after.tasks == mid.tasks && after.attempts == mid.attempts
    ensures after.events == db.events
  {
    SettleStores(db, j, ts, ats, text, mid);
    UpdateJobStores(mid, j, p, after);
  }

  /** Whenever the handlers' writes are accepted, this is what they leave. */
  lemma HandlersStore(db: DB, j: JobId, cancelled: bool, error: string, after: DB)
    requires j in db.jobs && HandlerWrites(db, j, cancelled, error) == Ok(after)
    ensures EndedRows(db, after, j, cancelled, error)
  {
    var stopped := db.jobs[j].stopRequested;
    var ts := if !cancelled then TaskState.Failed else if stopped then TaskState.Stopped else TaskState.Pending;
    var ats := if cancelled then AttemptState.Cancelled else AttemptState.Failed;
    var text := if !cancelled then FAILURE + error
                else if stopped then "stopped by user request" else "orchestrator interrupted";
    var p := if !cancelled then JobPatch(state := Some(JobState.Failed), error := Some(error))
             else JobPatch(state := Some(if stopped then JobState.Stopped else JobState.Queued));
    assert HandlerWrites(db, j, cancelled, error) == SettleThenUpdate(db, j, ts, ats, text, p);
    var mid := SettleInflight(db, j, ts, ats, text).value;
    SettledThenPatched(db, j, ts, ats, text, p, mid, after);
    SettleStores(db, j, ts, ats, text, mid);
  }

  /** A caller that sets the flag alone, as the store allows and the program never does, is what makes the
      handler of a cancellation fail. */
  lemma FlagAloneBreaksTheHandler(h: string -> string, db: DB, j: JobId, error: string)
    requires Inv(h, db) && j in db.jobs && db.jobs[j].phase.Ordinary? && db.jobs[j].state.Running?
    ensures var r := UpdateJob(db, j, JobPatch(stopRequested := Some(true)));
      r.Ok? && j in r.value.jobs && HandlerWrites(r.value, j, true, error).Err?
  {
    var p := JobPatch(stopRequested := Some(true));
    var after := PutJob(db, j, p.On(db.jobs[j]));
    FlagAccepted(h, db, j);
    UpdateJobKeeps(h, db, j, p);
    HandlersSettleTheJob(h, after, j, true, error);
  }

  lemma FlagAccepted(h: string -> string, db: DB, j: JobId)
    requires Inv(h, db) && j in db.jobs && db.jobs[j].phase.Ordinary? && db.jobs[j].state.Running?
    ensures var p := JobPatch(stopRequested := Some(true));
      UpdateJob(db, j, p) == Ok(PutJob(db, j, p.On(db.jobs[j])))
  {
    var row := db.jobs[j].(stopRequested := true);
    var after := PutJob(db, j, row);
    PutJobSlice(db, j, row);
    assert SliceOk(h, SliceOf(db, j));
    OkSliceAccepted(h, SliceOf(after, j));
    SnapshotByRows(after, j);
  }

  // ---- a crash between two failures ----------------------------------------------------

  /** A crash after the last attempt of a task has failed it, and before its job has: recovery requeues the
      job with the FAILED row, and the next run ends on that row as Dag.Scheduler.ExecuteDag says. */
  lemma CrashBetweenFailures(h: string -> string, db: DB, j: JobId, t: TaskId, counter: int, top: int, error: string)
    requires Inv(h, db) && Owns(db, j, t, TaskState.Pending, counter, top, None)
    requires db.jobs[j].state.Running? && !db.jobs[j].stopRequested
    ensures var r := UpdateTask(db, t, TaskPatch(state := Some(TaskState.Failed), lastError := Some(error)));
      && r.Ok? && RecoverIncomplete(r.value).Ok?
      && var after := RecoverIncomplete(r.value).value;
      && j in after.jobs && after.jobs[j].state.Queued? && !after.jobs[j].stopRequested
      && Dag.RowFailed(after, j)
  {
    var p := TaskPatch(state := Some(TaskState.Failed), lastError := Some(error));
    WorkerWrites.UpdateAccepted(h, db, j, t, TaskState.Pending, counter, top, None, p);
    FailedIsRequeued(h, UpdateTask(db, t, p).value, j, t);
  }

  lemma FailedIsRequeued(h: string -> string, failed: DB, j: JobId, t: TaskId)
    requires Inv(h, failed) && j in failed.jobs && failed.jobs[j].phase.Ordinary? && failed.jobs[j].state.Running?
    requires !failed.jobs[j].stopRequested && TaskOf(failed, t, j) && failed.tasks[t].state.Failed?
    ensures RecoverIncomplete(failed).Ok?
    ensures var after := RecoverIncomplete(failed).value;
      && j in after.jobs && after.jobs[j].state.Queued? && !after.jobs[j].stopRequested
      && Dag.RowFailed(after, j)
  {
    RecoverNeverRaises(h, failed);
    RecoverSettlesEveryJob(h, failed, j);
    FailureKept(failed, j, t);
  }

  lemma FailureKept(db: DB, j: JobId, t: TaskId)
    requires Owned(db) && j in ActiveIds(db) && TaskOf(db, t, j) && db.tasks[t].state.Failed?
    ensures Dag.RowFailed(RecoveredRows(db), j)
  {
    Dag.RecoveredTasks(db, j);
    assert t in TasksOf(db, j);
    assert t in TasksOf(RecoveredRows(db), j);
  }
}
