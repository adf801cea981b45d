/** Every write of the store keeps the strengthened invariant and undoes nothing. */
module Preservation {
  import opened Model
  import opened StateMachine
  import opened Store
  import opened Invariant

  // ---- ledger --------------------------------------------------------------------------

  lemma CountAppend(es: seq<Event>, e: Event, j: JobId, tag: Tag)
    ensures Count(es + [e], j, tag) == Count(es, j, tag) + Hit(e, j, tag)
  {
    assert (es + [e])[..|es|] == es;
  }

  lemma {:induction false} CountForeign(es: seq<Event>, more: seq<Event>, j: JobId, tag: Tag)
    requires forall k :: 0 <= k < |more| ==> more[k].job != j
    ensures Count(es + more, j, tag) == Count(es, j, tag)
  {
    if more == [] {
      assert es + more == es;
    } else {
      var init := more[..|more| - 1];
      assert es + more == (es + init) + [more[|more| - 1]];
      CountAppend(es + init, more[|more| - 1], j, tag);
      CountForeign(es, init, j, tag);
    }
  }

  /** What the ledger of a job says about its row. */
  ghost predicate SameJournal(db: DB, db': DB, j: JobId)
    requires j in db.jobs && j in db'.jobs
  {
    var x, y := db.jobs[j], db'.jobs[j];
    && y.phase == x.phase && y.intent == x.intent && y.outcome == x.outcome
    && (!x.phase.Ordinary? ==>
          && y.acceptedCommit == x.acceptedCommit && y.reason == x.reason && y.finalSummary == x.finalSummary
          && y.baseBranch == x.baseBranch && y.integrationBranch == x.integrationBranch
          && j in db.dossiers && j in db'.dossiers && db'.dossiers[j] == db.dossiers[j])
  }

  lemma LedgerKept(db: DB, db': DB, j: JobId, more: seq<Event>)
    requires j in db.jobs && j in db'.jobs && LedgerOk(db, j) && SameJournal(db, db', j)
    requires db'.events == db.events + more && forall k :: 0 <= k < |more| ==> more[k].job != j
    ensures LedgerOk(db', j)
  {
    forall tag: Tag | tag != TOther ensures Count(db'.events, j, tag) == Due(db'.jobs[j], tag) {
      assert Count(db.events, j, tag) == Due(db.jobs[j], tag);
      CountForeign(db.events, more, j, tag);
    }
  }

  lemma LedgerOwnEntry(db: DB, db': DB, j: JobId, e: Event)
    requires j in db.jobs && j in db'.jobs && LedgerOk(db, j)
    requires db'.events == db.events + [e] && e.job == j
    requires forall tag :: tag != TOther ==> Due(db'.jobs[j], tag) == Due(db.jobs[j], tag) + Hit(e, j, tag)
    requires Agrees(db', e)
    requires forall k :: 0 <= k < |db.events| && db.events[k].job == j ==> Agrees(db', db.events[k])
    ensures LedgerOk(db', j)
  {
    forall tag: Tag | tag != TOther ensures Count(db'.events, j, tag) == Due(db'.jobs[j], tag) {
      assert Count(db.events, j, tag) == Due(db.jobs[j], tag);
      CountAppend(db.events, e, j, tag);
    }
  }

  // ---- from slices to the store --------------------------------------------------------

  /** A write that touches the rows of one job only; the job may be new. */
  ghost predicate Touches(db: DB, db': DB, j: JobId) {
    && db'.jobs.Keys == db.jobs.Keys + {j}
    && (forall i <- db.jobs :: i != j ==> SliceOf(db', i) == SliceOf(db, i))
  }

  lemma SliceSelf(s: Slice)
    ensures SliceAdvances(s, s)
  {
  }

  lemma SameSlice(h: string -> string, db: DB, db': DB, i: JobId, more: seq<Event>)
    requires Inv(h, db) && i in db.jobs && i in db'.jobs && SliceOf(db', i) == SliceOf(db, i)
    requires db'.events == db.events + more && forall k :: 0 <= k < |more| ==> more[k].job != i
    ensures SliceOk(h, SliceOf(db', i)) && SliceAdvances(SliceOf(db, i), SliceOf(db', i)) && LedgerOk(db', i)
  {
    var x := SliceOf(db, i);
    assert SliceOk(h, x);
    SliceSelf(x);
    LedgerKept(db, db', i, more);
  }

  /** A write for one job, with its own ledger entries, keeps the invariant of the whole store. */
  lemma JournalWrite(h: string -> string, db: DB, db': DB, j: JobId, more: seq<Event>)
    requires Inv(h, db) && Touches(db, db', j) && Owned(db')
    requires db'.events == db.events + more && forall k :: 0 <= k < |more| ==> more[k].job == j
    requires SliceOk(h, SliceOf(db', j)) && LedgerOk(db', j)
    requires j in db.jobs ==> SliceAdvances(SliceOf(db, j), SliceOf(db', j))
    ensures Inv(h, db') && Advances(db, db')
  {
    forall i | i in db.jobs && i != j
      ensures SliceOk(h, SliceOf(db', i)) && LedgerOk(db', i) && SliceAdvances(SliceOf(db, i), SliceOf(db', i))
    {
      SameSlice(h, db, db', i, more);
    }
  }

  /** A write that leaves the acceptance journal and the ledger alone. */
  lemma QuietWrite(h: string -> string, db: DB, db': DB, j: JobId)
    requires Inv(h, db) && j in db.jobs && Touches(db, db', j) && Owned(db') && db'.events == db.events
    requires SliceOk(h, SliceOf(db', j)) && SliceAdvances(SliceOf(db, j), SliceOf(db', j))
    requires SameJournal(db, db', j)
    ensures Inv(h, db') && Advances(db, db')
  {
    assert db'.events == db.events + [];
    LedgerKept(db, db', j, []);
    JournalWrite(h, db, db', j, []);
  }

  // ---- rows written one at a time ------------------------------------------------------

  function PutJob(db: DB, j: JobId, row: Job): DB {
    db.(jobs := db.jobs[j := row])
  }

  lemma PutJobSlice(db: DB, j: JobId, row: Job)
    requires j in db.jobs && Owned(db)
    ensures Owned(PutJob(db, j, row)) && Touches(db, PutJob(db, j, row), j)
    ensures SliceOf(PutJob(db, j, row), j) == SliceOf(db, j).(job := row)
  {
    var db' := PutJob(db, j, row);
    forall i | i in db.jobs ensures TasksOf(db', i) == TasksOf(db, i) && AttemptsOf(db', i) == AttemptsOf(db, i) {}
  }

  function PutTask(db: DB, t: TaskId, row: Task): DB {
    db.(tasks := db.tasks[t := row])
  }

  lemma PutTaskRows(db: DB, j: JobId, t: TaskId, row: Task)
    requires row.job == j && (t in db.tasks ==> db.tasks[t].job == j)
    ensures TasksOf(PutTask(db, t, row), j) == TasksOf(db, j)[t := row]
    ensures forall i :: i != j ==> TasksOf(PutTask(db, t, row), i) == TasksOf(db, i)
  {
    var db' := PutTask(db, t, row);
    forall i | i != j ensures TasksOf(db', i) == TasksOf(db, i) {}
  }

  lemma PutTaskSlice(db: DB, j: JobId, t: TaskId, row: Task)
    requires j in db.jobs && Owned(db) && row.job == j && (t in db.tasks ==> db.tasks[t].job == j)
    ensures Owned(PutTask(db, t, row)) && Touches(db, PutTask(db, t, row), j)
    ensures SliceOf(PutTask(db, t, row), j) == SliceOf(db, j).(tasks := SliceOf(db, j).tasks[t := row])
  {
    var db' := PutTask(db, t, row);
    PutTaskRows(db, j, t, row);
    forall i | i in db.jobs ensures AttemptsOf(db', i) == AttemptsOf(db, i) {}
  }

  function PutAttempt(db: DB, a: AttemptId, row: Attempt): DB {
    db.(attempts := db.attempts[a := row])
  }

  lemma PutAttemptRows(db: DB, j: JobId, a: AttemptId, row: Attempt)
    requires row.job == j && (a in db.attempts ==> db.attempts[a].job == j)
    ensures AttemptsOf(PutAttempt(db, a, row), j) == AttemptsOf(db, j)[a := row]
    ensures forall i :: i != j ==> AttemptsOf(PutAttempt(db, a, row), i) == AttemptsOf(db, i)
  {
    var db' := PutAttempt(db, a, row);
    forall i | i != j ensures AttemptsOf(db', i) == AttemptsOf(db, i) {}
  }

  lemma PutAttemptSlice(db: DB, j: JobId, a: AttemptId, row: Attempt)
    requires j in db.jobs && Owned(db) && row.job == j && (a in db.attempts ==> db.attempts[a].job == j)
    ensures Owned(PutAttempt(db, a, row)) && Touches(db, PutAttempt(db, a, row), j)
    ensures SliceOf(PutAttempt(db, a, row), j) == SliceOf(db, j).(attempts := SliceOf(db, j).attempts[a := row])
  {
    var db' := PutAttempt(db, a, row);
    PutAttemptRows(db, j, a, row);
    forall i | i in db.jobs ensures TasksOf(db', i) == TasksOf(db, i) {}
  }

  lemma TouchesTransitive(x: DB, y: DB, z: DB, j: JobId)
    requires Touches(x, y, j) && Touches(y, z, j)
    ensures Touches(x, z, j)
  {
  }

  // ---- update_job ----------------------------------------------------------------------

  lemma PatchedJobSlice(h: string -> string, x: Slice, p: JobPatch)
    requires SliceOk(h, x) && ValidatorAccepts(x.(job := p.On(x.job)))
    requires p.state.GetOr(x.job.state) in JobTransitions(x.job.state)
    requires p.state.GetOr(x.job.state).Completed? ==> x.job.state.Completed?
    requires x.job.phase.Ordinary? || !p.Frozen()
    ensures SliceOk(h, x.(job := p.On(x.job))) && SliceAdvances(x, x.(job := p.On(x.job)))
  {
  }

  lemma UpdateJobKeeps(h: string -> string, db: DB, j: JobId, p: JobPatch)
    requires Inv(h, db) && UpdateJob(db, j, p).Ok?
    ensures Inv(h, UpdateJob(db, j, p).value) && Advances(db, UpdateJob(db, j, p).value)
  {
    var db' := UpdateJob(db, j, p).value;
    if p.Empty() {
      AdvancesReflexive(db);
    } else {
      SnapshotByRows(db', j);
      PutJobSlice(db, j, p.On(db.jobs[j]));
      PatchedJobSlice(h, SliceOf(db, j), p);
      QuietWrite(h, db, db', j);
    }
  }

  // ---- update_task ---------------------------------------------------------------------

  lemma PatchedTaskAdvances(x: Slice, t: TaskId, p: TaskPatch, y: Slice)
    requires t in x.tasks && x.job.phase.Ordinary?
    requires p.state.GetOr(x.tasks[t].state) in TaskTransitions(x.tasks[t].state)
    requires y == x.(job := Activate(x.job, p.state.GetOr(x.tasks[t].state)), tasks := x.tasks[t := p.On(x.tasks[t])])
    requires x.job.state.Completed? ==> x.job.phase.Published?
    ensures SliceAdvances(x, y)
  {
  }

  lemma PatchedTaskSlice(h: string -> string, x: Slice, t: TaskId, p: TaskPatch, y: Slice)
    requires SliceOk(h, x) && t in x.tasks && x.job.phase.Ordinary?
    requires p.state.GetOr(x.tasks[t].state) in TaskTransitions(x.tasks[t].state)
    requires y == x.(job := Activate(x.job, p.state.GetOr(x.tasks[t].state)), tasks := x.tasks[t := p.On(x.tasks[t])])
    requires ValidatorAccepts(y)
    ensures SliceOk(h, y) && SliceAdvances(x, y)
  {
    PatchedTaskAdvances(x, t, p, y);
    assert p.On(x.tasks[t]).logicalId == x.tasks[t].logicalId;
    assert LogicalIdsUnique(y.tasks);
  }

  lemma UpdateTaskKeeps(h: string -> string, db: DB, t: TaskId, p: TaskPatch)
    requires Inv(h, db) && UpdateTask(db, t, p).Ok?
    ensures Inv(h, UpdateTask(db, t, p).value) && Advances(db, UpdateTask(db, t, p).value)
  {
    var db' := UpdateTask(db, t, p).value;
    if p == TaskPatch() {
      AdvancesReflexive(db);
    } else {
      var j := db.tasks[t].job;
      var row := Activate(db.jobs[j], p.state.GetOr(db.tasks[t].state));
      var db1 := PutJob(db, j, row);
      PutJobSlice(db, j, row);
      PutTaskSlice(db1, j, t, p.On(db.tasks[t]));
      assert db' == PutTask(db1, t, p.On(db.tasks[t]));
      TouchesTransitive(db, db1, db', j);
      SnapshotByRows(db', j);
      PatchedTaskSlice(h, SliceOf(db, j), t, p, SliceOf(db', j));
      QuietWrite(h, db, db', j);
    }
  }

  // ---- start_attempt, finish_attempt ---------------------------------------------------

  lemma NewAttemptSlice(h: string -> string, x: Slice, id: AttemptId, row: Attempt)
    requires SliceOk(h, x) && id !in x.attempts && row.state.Running? && row.task in x.tasks
    requires x.job.state.Running? && x.job.phase.Ordinary? && x.tasks[row.task].state.Running?
    requires forall a <- x.attempts :: x.attempts[a].task == row.task ==>
               x.attempts[a].number != row.number && !x.attempts[a].state.Running?
    ensures SliceOk(h, x.(attempts := x.attempts[id := row])) && SliceAdvances(x, x.(attempts := x.attempts[id := row]))
  {
  }

  lemma StartAttemptKeeps(h: string -> string, db: DB, id: AttemptId, j: JobId, t: TaskId, number: int,
                          agent: string, worktree: string, branch: string, logPath: string)
    requires Inv(h, db) && StartAttempt(db, id, j, t, number, agent, worktree, branch, logPath).Ok?
    ensures Inv(h, StartAttempt(db, id, j, t, number, agent, worktree, branch, logPath).value)
    ensures Advances(db, StartAttempt(db, id, j, t, number, agent, worktree, branch, logPath).value)
  {
    var db' := StartAttempt(db, id, j, t, number, agent, worktree, branch, logPath).value;
    var row := db'.attempts[id];
    PutAttemptSlice(db, j, id, row);
    var x := SliceOf(db, j);
    assert TaskOf(db, t, j);
    forall a | a in x.attempts && x.attempts[a].task == t
      ensures x.attempts[a].number != number && !x.attempts[a].state.Running?
    {
      assert RunningAttempt(db, a) <==> x.attempts[a].state.Running?;
    }
    NewAttemptSlice(h, x, id, row);
    QuietWrite(h, db, db', j);
  }

  lemma FinishedAttemptSlice(h: string -> string, x: Slice, a: AttemptId, row: Attempt)
    requires SliceOk(h, x) && a in x.attempts && x.attempts[a].state.Running?
    requires row == x.attempts[a].(state := row.state, returncode := row.returncode, summary := row.summary)
    requires !row.state.Running?
    ensures SliceOk(h, x.(attempts := x.attempts[a := row])) && SliceAdvances(x, x.(attempts := x.attempts[a := row]))
  {
  }

  lemma FinishAttemptKeeps(h: string -> string, db: DB, a: AttemptId, target: AttemptState,
                           returncode: Option<int>, summary: string)
    requires Inv(h, db) && FinishAttempt(db, a, target, returncode, summary).Ok?
    ensures Inv(h, FinishAttempt(db, a, target, returncode, summary).value)
    ensures Advances(db, FinishAttempt(db, a, target, returncode, summary).value)
  {
    var db' := FinishAttempt(db, a, target, returncode, summary).value;
    var j := db.attempts[a].job;
    PutAttemptSlice(db, j, a, db'.attempts[a]);
    FinishedAttemptSlice(h, SliceOf(db, j), a, db'.attempts[a]);
    QuietWrite(h, db, db', j);
  }

  // ---- bulk updates --------------------------------------------------------------------

  ghost function ClosedRows(m: map<AttemptId, Attempt>, state: AttemptState, summary: string): map<AttemptId, Attempt> {
    map a | a in m :: ClosedAttempt(m[a], state, summary)
  }

  ghost function SettledRows(m: map<TaskId, Task>, state: TaskState, lastError: string): map<TaskId, Task> {
    map t | t in m :: SettledTask(m[t], state, lastError)
  }

  ghost function ResetRows(m: map<TaskId, Task>): map<TaskId, Task> {
    map t | t in m :: ResetTask(m[t])
  }

  lemma CloseAttemptsRows(db: DB, js: set<JobId>, state: AttemptState, summary: string, i: JobId)
    ensures AttemptsOf(CloseAttempts(db, js, state, summary), i) ==
            if i in js then ClosedRows(AttemptsOf(db, i), state, summary) else AttemptsOf(db, i)
  {
  }

  lemma SettleTasksRows(db: DB, js: set<JobId>, state: TaskState, lastError: string, i: JobId)
    ensures TasksOf(SettleTasks(db, js, state, lastError), i) ==
            if i in js then SettledRows(TasksOf(db, i), state, lastError) else TasksOf(db, i)
  {
    if i in js { SettledHere(db, js, state, lastError, i); } else { SettledElsewhere(db, js, state, lastError, i); }
  }

  lemma SettledHere(db: DB, js: set<JobId>, state: TaskState, lastError: string, i: JobId)
    requires i in js
    ensures TasksOf(SettleTasks(db, js, state, lastError), i) == SettledRows(TasksOf(db, i), state, lastError)
  {
  }

  lemma SettledElsewhere(db: DB, js: set<JobId>, state: TaskState, lastError: string, i: JobId)
    requires i !in js
    ensures TasksOf(SettleTasks(db, js, state, lastError), i) == TasksOf(db, i)
  {
  }

  lemma ResetTasksRows(db: DB, j: JobId, i: JobId)
    ensures TasksOf(ResetTasks(db, j), i) == if i == j then ResetRows(TasksOf(db, i)) else TasksOf(db, i)
  {
  }

  ghost function CloseIn(x: Slice, state: AttemptState, summary: string): Slice {
    x.(attempts := ClosedRows(x.attempts, state, summary))
  }

  lemma CloseAttemptsSlice(db: DB, js: set<JobId>, state: AttemptState, summary: string, i: JobId)
    requires i in db.jobs && Owned(db)
    ensures Owned(CloseAttempts(db, js, state, summary))
    ensures SliceOf(CloseAttempts(db, js, state, summary), i) ==
            if i in js then CloseIn(SliceOf(db, i), state, summary) else SliceOf(db, i)
  {
    CloseAttemptsRows(db, js, state, summary, i);
    assert TasksOf(CloseAttempts(db, js, state, summary), i) == TasksOf(db, i);
  }

  ghost function SettleIn(x: Slice, state: TaskState, lastError: string): Slice {
    x.(tasks := SettledRows(x.tasks, state, lastError))
  }

  lemma SettleTasksSlice(db: DB, js: set<JobId>, state: TaskState, lastError: string, i: JobId)
    requires i in db.jobs && Owned(db)
    ensures Owned(SettleTasks(db, js, state, lastError))
    ensures SliceOf(SettleTasks(db, js, state, lastError), i) ==
            if i in js then SettleIn(SliceOf(db, i), state, lastError) else SliceOf(db, i)
  {
    SettleTasksRows(db, js, state, lastError, i);
    assert AttemptsOf(SettleTasks(db, js, state, lastError), i) == AttemptsOf(db, i);
  }

  ghost function ResetIn(x: Slice): Slice {
    x.(tasks := ResetRows(x.tasks))
  }

  lemma ResetTasksSlice(db: DB, j: JobId, i: JobId)
    requires i in db.jobs && Owned(db)
    ensures Owned(ResetTasks(db, j))
    ensures SliceOf(ResetTasks(db, j), i) == if i == j then ResetIn(SliceOf(db, i)) else SliceOf(db, i)
  {
    ResetTasksRows(db, j, i);
    assert AttemptsOf(ResetTasks(db, j), i) == AttemptsOf(db, i);
  }

  /** Rows rewritten without touching their keys. */
  ghost predicate SameKeys(m: map<TaskId, Task>, m': map<TaskId, Task>) {
    m'.Keys == m.Keys && forall t <- m :: m'[t].logicalId == m[t].logicalId && TaskAdvances(m[t], m'[t])
  }

  lemma SameKeysUnique(m: map<TaskId, Task>, m': map<TaskId, Task>)
    requires SameKeys(m, m') && LogicalIdsUnique(m)
    ensures LogicalIdsUnique(m')
  {
  }

  ghost predicate NoneRunning(x: Slice) {
    forall a <- x.attempts :: !x.attempts[a].state.Running?
  }

  ghost predicate NoneInflight(x: Slice) {
    forall t <- x.tasks :: !Inflight(x.tasks[t].state)
  }

  lemma ClosedDistinct(m: map<AttemptId, Attempt>, state: AttemptState, summary: string)
    requires AttemptsDistinct(m) && !state.Running?
    ensures AttemptsDistinct(ClosedRows(m, state, summary))
  {
    var m' := ClosedRows(m, state, summary);
    assert forall a <- m' :: m'[a].task == m[a].task && m'[a].number == m[a].number && !m'[a].state.Running?;
  }

  lemma ClosedSlice(h: string -> string, x: Slice, state: AttemptState, summary: string)
    requires SliceOk(h, x) && !state.Running? && x.job.phase.Ordinary?
    ensures SliceOk(h, CloseIn(x, state, summary)) && SliceAdvances(x, CloseIn(x, state, summary))
    ensures NoneRunning(CloseIn(x, state, summary))
  {
    ClosedDistinct(x.attempts, state, summary);
    ClosedFits(x, state, summary);
    ClosedAdvances(x, state, summary);
  }

  lemma ClosedFits(x: Slice, state: AttemptState, summary: string)
    requires AttemptsFit(x) && !state.Running?
    ensures AttemptsFit(CloseIn(x, state, summary)) && NoneRunning(CloseIn(x, state, summary))
  {
  }

  lemma ClosedAdvances(x: Slice, state: AttemptState, summary: string)
    requires x.job.phase.Ordinary?
    ensures SliceAdvances(x, CloseIn(x, state, summary))
  {
  }

  /** With no running attempt left, the tasks may take other states, none of them in flight. */
  lemma IdleTasksSlice(h: string -> string, x: Slice, y: Slice)
    requires SliceOk(h, x) && x.job.phase.Ordinary? && NoneRunning(x)
    requires y == x.(tasks := y.tasks) && SameKeys(x.tasks, y.tasks) && NoneInflight(y)
    ensures SliceOk(h, y) && SliceAdvances(x, y)
  {
    SameKeysUnique(x.tasks, y.tasks);
    assert TasksFit(y) && AttemptsFit(y);
  }

  lemma SettledSameKeys(m: map<TaskId, Task>, state: TaskState, lastError: string)
    requires !Inflight(state)
    ensures SameKeys(m, SettledRows(m, state, lastError))
  {
  }

  lemma SettledSlice(h: string -> string, x: Slice, state: TaskState, lastError: string)
    requires SliceOk(h, x) && x.job.phase.Ordinary? && !Inflight(state) && NoneRunning(x)
    ensures SliceOk(h, SettleIn(x, state, lastError)) && SliceAdvances(x, SettleIn(x, state, lastError))
    ensures NoneInflight(SettleIn(x, state, lastError))
  {
    SettledSameKeys(x.tasks, state, lastError);
    assert NoneInflight(SettleIn(x, state, lastError));
    IdleTasksSlice(h, x, SettleIn(x, state, lastError));
  }

  lemma ResetSlice(h: string -> string, x: Slice)
    requires SliceOk(h, x) && x.job.phase.Ordinary? && NoneRunning(x)
    ensures SliceOk(h, ResetIn(x)) && SliceAdvances(x, ResetIn(x))
    ensures NoneInflight(ResetIn(x))
  {
    assert SameKeys(x.tasks, ResetRows(x.tasks));
    IdleTasksSlice(h, x, ResetIn(x));
  }

  /** The job row of an idle job may take any non-final state the flags allow. */
  lemma IdleJobSlice(h: string -> string, x: Slice, row: Job)
    requires SliceOk(h, x) && x.job.phase.Ordinary?
    requires NoneRunning(x) && NoneInflight(x)
    requires row == x.job.(state := row.state, stopRequested := row.stopRequested, error := row.error)
    requires !row.state.Completed? && (row.state.Stopped? ==> row.stopRequested)
    ensures SliceOk(h, x.(job := row)) && SliceAdvances(x, x.(job := row))
  {
  }

  lemma IdleJobRunsNothing(h: string -> string, x: Slice)
    requires SliceOk(h, x) && !x.job.state.Running? && !x.job.state.Stopping?
    ensures NoneRunning(x) && NoneInflight(x)
  {
  }

  lemma RetryKeeps(h: string -> string, db: DB, j: JobId)
    requires Inv(h, db) && RetryFailedTasks(db, j).Ok?
    ensures Inv(h, RetryFailedTasks(db, j).value) && Advances(db, RetryFailedTasks(db, j).value)
  {
    var db' := RetryFailedTasks(db, j).value;
    forall i | i in db.jobs
      ensures Owned(db') && SliceOf(db', i) == if i == j then ResetIn(SliceOf(db, i)) else SliceOf(db, i)
    {
      ResetTasksSlice(db, j, i);
    }
    IdleJobRunsNothing(h, SliceOf(db, j));
    ResetSlice(h, SliceOf(db, j));
    QuietWrite(h, db, db', j);
  }

  /** What settle_inflight makes of the rows of its job. */
  ghost function Settled(x: Slice, ts: TaskState, ats: AttemptState, summary: string, lastError: string): Slice {
    SettleIn(CloseIn(x, ats, summary), ts, lastError)
  }

  lemma SettledBoth(h: string -> string, x: Slice, ts: TaskState, ats: AttemptState, summary: string, lastError: string)
    requires SliceOk(h, x) && x.job.phase.Ordinary? && !Inflight(ts) && !ats.Running?
    ensures SliceOk(h, Settled(x, ts, ats, summary, lastError))
    ensures SliceAdvances(x, Settled(x, ts, ats, summary, lastError))
    ensures NoneRunning(Settled(x, ts, ats, summary, lastError))
    ensures NoneInflight(Settled(x, ts, ats, summary, lastError))
  {
    ClosedSlice(h, x, ats, summary);
    SettledSlice(h, CloseIn(x, ats, summary), ts, lastError);
    SliceTransitive(x, CloseIn(x, ats, summary), Settled(x, ts, ats, summary, lastError));
  }

  lemma SettleSlices(db: DB, js: set<JobId>, ts: TaskState, ats: AttemptState, summary: string, lastError: string, i: JobId)
    requires i in db.jobs && Owned(db)
    ensures Owned(SettleTasks(CloseAttempts(db, js, ats, summary), js, ts, lastError))
    ensures SliceOf(SettleTasks(CloseAttempts(db, js, ats, summary), js, ts, lastError), i) ==
            if i in js then Settled(SliceOf(db, i), ts, ats, summary, lastError) else SliceOf(db, i)
  {
    CloseAttemptsSlice(db, js, ats, summary, i);
    SettleTasksSlice(CloseAttempts(db, js, ats, summary), js, ts, lastError, i);
  }

  lemma SettleKeeps(h: string -> string, db: DB, j: JobId, ts: TaskState, ats: AttemptState, summary: string)
    requires Inv(h, db) && SettleInflight(db, j, ts, ats, summary).Ok?
    ensures Inv(h, SettleInflight(db, j, ts, ats, summary).value)
    ensures Advances(db, SettleInflight(db, j, ts, ats, summary).value)
  {
    var db' := SettleInflight(db, j, ts, ats, summary).value;
    var text := Tail(summary, 8000);
    forall i | i in db.jobs
      ensures Owned(db')
      ensures SliceOf(db', i) == if i == j then Settled(SliceOf(db, i), ts, ats, text, text) else SliceOf(db, i)
    {
      SettleSlices(db, {j}, ts, ats, text, text, i);
    }
    SettledBoth(h, SliceOf(db, j), ts, ats, text, text);
    QuietWrite(h, db, db', j);
  }

  lemma ResumedSlice(h: string -> string, x: Slice, text: string, row: Job, y: Slice)
    requires SliceOk(h, x) && x.job.phase.Ordinary?
    requires row == x.job.(state := JobState.Queued, stopRequested := false, error := "")
    requires y == ResetIn(CloseIn(x, AttemptState.Cancelled, text)).(job := row)
    ensures SliceOk(h, y) && SliceAdvances(x, y)
  {
    var x1 := CloseIn(x, AttemptState.Cancelled, text);
    ClosedSlice(h, x, AttemptState.Cancelled, text);
    ResetSlice(h, x1);
    IdleJobSlice(h, ResetIn(x1), row);
    SliceTransitive(x, x1, ResetIn(x1));
    SliceTransitive(x, ResetIn(x1), y);
  }

  lemma ResumeKeeps(h: string -> string, db: DB, j: JobId)
    requires Inv(h, db) && PrepareResume(db, j).Ok?
    ensures Inv(h, PrepareResume(db, j).value) && Advances(db, PrepareResume(db, j).value)
  {
    var db' := PrepareResume(db, j).value;
    var text := "cancelled before explicit resume";
    var db1 := CloseAttempts(db, {j}, AttemptState.Cancelled, text);
    var db2 := ResetTasks(db1, j);
    var x1 := CloseIn(SliceOf(db, j), AttemptState.Cancelled, text);
    forall i | i in db.jobs
      ensures Owned(db2) && SliceOf(db2, i) == if i == j then ResetIn(x1) else SliceOf(db, i)
    {
      CloseAttemptsSlice(db, {j}, AttemptState.Cancelled, text, i);
      ResetTasksSlice(db1, j, i);
    }
    PutJobSlice(db2, j, db'.jobs[j]);
    TouchesTransitive(db, db2, db', j);
    ResumedSlice(h, SliceOf(db, j), text, db'.jobs[j], SliceOf(db', j));
    QuietWrite(h, db, db', j);
  }
}
