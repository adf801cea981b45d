/** The writes of a worker, and why the store accepts each of them while its job lives. */
module WorkerWrites {
  import opened Model
  import opened StateMachine
  import opened Store
  import opened Invariant
  import opened Preservation
  import opened Journal
  import opened Worker

  lemma LiveTaskAccepted(h: string -> string, x: Slice, t: TaskId, row: Task)
    requires SliceOk(h, x) && JobLive(x.job) && t in x.tasks
    requires forall a <- x.attempts :: x.attempts[a].task == t && x.attempts[a].state.Running? ==> Inflight(row.state)
    ensures ValidatorAccepts(x.(tasks := x.tasks[t := row]))
  {
  }

  lemma UpdateAccepted(h: string -> string, db: DB, j: JobId, t: TaskId, state: TaskState, counter: int, top: int,
                       current: Option<AttemptId>, p: TaskPatch)
    requires Inv(h, db) && Owns(db, j, t, state, counter, top, current)
    requires p.state.GetOr(state) in TaskTransitions(state) && p.attempts.GetOr(counter) >= counter
    requires current.Some? ==> Inflight(p.state.GetOr(state))
    ensures UpdateTask(db, t, p).Ok?
    ensures var after := UpdateTask(db, t, p).value;
      && Inv(h, after) && after.jobs == db.jobs && after.attempts == db.attempts
      && after.tasks[t] == p.On(db.tasks[t])
      && Owns(after, j, t, p.state.GetOr(state), p.attempts.GetOr(counter), top, current)
  {
    if p != TaskPatch() {
      var row := p.On(db.tasks[t]);
      var db' := PutTask(db, t, row);
      assert SliceOk(h, SliceOf(db, j));
      PutTaskSlice(db, j, t, row);
      LiveTaskAccepted(h, SliceOf(db, j), t, row);
      SnapshotByRows(db', j);
      Patched(db, j, t, p);
      UpdateTaskKeeps(h, db, t, p);
    }
  }

  /** With the job live, the write is the row and nothing else. */
  lemma Patched(db: DB, j: JobId, t: TaskId, p: TaskPatch)
    requires j in db.jobs && JobLive(db.jobs[j]) && TaskOf(db, t, j) && p != TaskPatch()
    requires p.state.GetOr(db.tasks[t].state) in TaskTransitions(db.tasks[t].state)
    requires p.state.GetOr(db.tasks[t].state).Completed? ==> db.tasks[t].state.Completed? || !HasRunningAttempt(db, t)
    requires SnapshotOk(PutTask(db, t, p.On(db.tasks[t])), j)
    ensures UpdateTask(db, t, p) == Ok(PutTask(db, t, p.On(db.tasks[t])))
  {
    assert db.jobs[j := db.jobs[j]] == db.jobs;
  }

  lemma NewAttemptAccepted(h: string -> string, x: Slice, id: AttemptId, row: Attempt)
    requires SliceOk(h, x) && x.job.state.Running? && x.job.phase.Ordinary?
    requires row.task in x.tasks && x.tasks[row.task].state.Running?
    ensures ValidatorAccepts(x.(attempts := x.attempts[id := row]))
  {
  }

  lemma StartAccepted(h: string -> string, db: DB, j: JobId, t: TaskId, counter: int, top: int, id: AttemptId,
                      agent: string, worktree: string, branch: string, logPath: string)
    requires Inv(h, db) && Owns(db, j, t, TaskState.Running, counter, top, None) && top < counter
    requires !db.jobs[j].stopRequested && id !in db.attempts
    ensures StartAttempt(db, id, j, t, counter, agent, worktree, branch, logPath).Ok?
    ensures var after := StartAttempt(db, id, j, t, counter, agent, worktree, branch, logPath).value;
      && Inv(h, after) && after.jobs == db.jobs && after.tasks == db.tasks
      && after.attempts == db.attempts[id := Attempt(j, t, counter, agent, worktree, branch, logPath,
                                                     AttemptState.Running, None, "")]
      && Owns(after, j, t, TaskState.Running, counter, counter, Some(id))
    ensures var after := StartAttempt(db, id, j, t, counter, agent, worktree, branch, logPath).value;
      forall known, base {:trigger Above(after, t, known, base)} ::
        Above(db, t, known, base) && base < counter ==> Above(after, t, known, base)
  {
    var row := Attempt(j, t, counter, agent, worktree, branch, logPath, AttemptState.Running, None, "");
    assert SliceOk(h, SliceOf(db, j));
    assert t in SliceOf(db, j).tasks;
    PutAttemptSlice(db, j, id, row);
    NewAttemptAccepted(h, SliceOf(db, j), id, row);
    SnapshotByRows(PutAttempt(db, id, row), j);
    assert !HasRunningAttempt(db, t) && !NumberTaken(db, t, counter);
    StartAttemptKeeps(h, db, id, j, t, counter, agent, worktree, branch, logPath);
  }

  lemma ClosedAttemptAccepted(h: string -> string, x: Slice, a: AttemptId, row: Attempt)
    requires SliceOk(h, x) && !row.state.Running?
    ensures ValidatorAccepts(x.(attempts := x.attempts[a := row]))
  {
  }

  lemma FinishAccepted(h: string -> string, db: DB, j: JobId, t: TaskId, state: TaskState, counter: int, top: int,
                       a: AttemptId, target: AttemptState, returncode: Option<int>, summary: string)
    requires Inv(h, db) && Owns(db, j, t, state, counter, top, Some(a)) && !target.Running?
    ensures FinishAttempt(db, a, target, returncode, summary).Ok?
    ensures var after := FinishAttempt(db, a, target, returncode, summary).value;
      && Inv(h, after) && after.jobs == db.jobs && after.tasks == db.tasks
      && after.attempts == db.attempts[a := db.attempts[a].(state := target, returncode := returncode, summary := summary)]
      && Owns(after, j, t, state, counter, top, None)
    ensures var after := FinishAttempt(db, a, target, returncode, summary).value;
      forall known, base {:trigger Above(after, t, known, base)} ::
        Above(db, t, known, base) ==> Above(after, t, known, base)
  {
    var row := db.attempts[a].(state := target, returncode := returncode, summary := summary);
    assert SliceOk(h, SliceOf(db, j));
    AttemptJob(h, db, j, t, a);
    PutAttemptSlice(db, j, a, row);
    ClosedAttemptAccepted(h, SliceOf(db, j), a, row);
    SnapshotByRows(PutAttempt(db, a, row), j);
    FinishAttemptKeeps(h, db, a, target, returncode, summary);
  }

  lemma EventAccepted(h: string -> string, db: DB, j: JobId, t: TaskId, state: TaskState, counter: int, top: int,
                      current: Option<AttemptId>, name: string, payload: string)
    requires Inv(h, db) && Owns(db, j, t, state, counter, top, current)
    ensures LogEvent(db, j, Some(t), name, payload).Ok?
    ensures var after := LogEvent(db, j, Some(t), name, payload).value;
      Inv(h, after) && after.jobs == db.jobs && after.attempts == db.attempts
      && Owns(after, j, t, state, counter, top, current)
  {
    LogEventKeeps(h, db, j, Some(t), name, payload);
  }

  /** Attempts of the task beyond the known ones are numbered above the base. */
  ghost predicate Above(db: DB, t: TaskId, known: set<AttemptId>, base: int) {
    forall a <- db.attempts :: db.attempts[a].task == t ==> a in known || db.attempts[a].number > base
  }
}
