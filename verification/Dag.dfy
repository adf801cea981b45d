/** The scheduler: start what is ready up to the parallel limit, wait, look at what ended, repeat. */
module Dag {
  import opened Model
  import opened Store
  import opened Invariant
  import opened Planner
  import opened Recovery
  import opened DatabaseClass
  import opened Runs

  // ---- a schedulable job ---------------------------------------------------------------

  /** The rows carry the dependency graph g, one row a node. */
  ghost predicate Planted(rows: map<TaskId, Task>, g: Graph) {
    && (forall t <- rows :: rows[t].logicalId in g && g[rows[t].logicalId] == ToSet(rows[t].dependencies))
    && (forall n <- g :: exists t <- rows :: rows[t].logicalId == n)
  }

  ghost predicate Acyclic(g: Graph) {
    Closed(g) && !HasCycle(g)
  }

  /** Every task is pending, completed, or owned by an active handle. */
  ghost predicate Accounted(db: DB, j: JobId, active: set<TaskId>) {
    forall t <- db.tasks :: TaskOf(db, t, j) ==>
      db.tasks[t].state.Pending? || db.tasks[t].state.Completed? || t in active
  }

  /** The state in which the orchestrator enters the loop: a fresh plan, a resumed job, or a recovered one
      without refused tasks. */
  ghost predicate Schedulable(db: DB, j: JobId) {
    Accounted(db, j, {}) && exists g :: Planted(TasksOf(db, j), g) && Acyclic(g)
  }

  ghost function GraphFor(db: DB, j: JobId): (g: Graph)
    ensures Schedulable(db, j) ==> Planted(TasksOf(db, j), g) && Acyclic(g)
  {
    if Schedulable(db, j) then (var g :| Planted(TasksOf(db, j), g) && Acyclic(g); g) else map[]
  }

  /** The rows of j after inserting the plan's first k tasks carry the graph of those tasks. */
  lemma {:induction false} InsertPlants(db: DB, j: JobId, start: nat, ids: seq<TaskId>, plan: seq<PlannedTask>, k: nat)
    requires |ids| == |plan| && k <= |plan| && InsertTasks(db, j, start, ids, plan, k).Ok?
    requires Planted(TasksOf(db, j), GraphOf(plan[..k])) && Accounted(db, j, {})
    ensures var after := InsertTasks(db, j, start, ids, plan, k).value;
      Planted(TasksOf(after, j), GraphOf(plan)) && Accounted(after, j, {})
    decreases |plan| - k
  {
    if k == |plan| {
      assert plan[..k] == plan;
    } else {
      var next := db.(tasks := db.tasks[ids[k] := NewTask(j, start + k + 1, plan[k])]);
      PlantOne(db, j, start, ids[k], plan, k);
      InsertPlants(next, j, start, ids, plan, k + 1);
    }
  }

  lemma PlantRow(rows: map<TaskId, Task>, g: Graph, id: TaskId, row: Task)
    requires Planted(rows, g) && id !in rows && forall t <- rows :: rows[t].logicalId != row.logicalId
    ensures Planted(rows[id := row], g[row.logicalId := ToSet(row.dependencies)])
  {
    var rows', g' := rows[id := row], g[row.logicalId := ToSet(row.dependencies)];
    forall n | n in g' ensures exists t <- rows' :: rows'[t].logicalId == n {
      if n == row.logicalId {
        assert id in rows';
      } else {
        var t :| t in rows && rows[t].logicalId == n;
        assert t in rows' && rows'[t] == rows[t];
      }
    }
  }

  lemma PlantOne(db: DB, j: JobId, start: nat, id: TaskId, plan: seq<PlannedTask>, k: nat)
    requires k < |plan| && id !in db.tasks && !LogicalIdTaken(db, j, plan[k].logicalId)
    requires Planted(TasksOf(db, j), GraphOf(plan[..k]))
    ensures var next := db.(tasks := db.tasks[id := NewTask(j, start + k + 1, plan[k])]);
      Planted(TasksOf(next, j), GraphOf(plan[..k + 1]))
  {
    var row := NewTask(j, start + k + 1, plan[k]);
    var rows := TasksOf(db, j);
    assert GraphOf(plan[..k + 1]) == GraphOf(plan[..k])[row.logicalId := ToSet(row.dependencies)] by {
      assert plan[..k + 1][..k] == plan[..k];
    }
    forall t | t in rows ensures rows[t].logicalId != row.logicalId {
      assert TaskOf(db, t, j);
    }
    PlantRow(rows, GraphOf(plan[..k]), id, row);
    assert TasksOf(db.(tasks := db.tasks[id := row]), j) == rows[id := row];
  }

  /** A plan the planner accepted. */
  ghost predicate Validated(plan: seq<PlannedTask>, maxTasks: nat) {
    Verdict(plan, maxTasks).None?
  }

  /** The orchestrator's plan of one task when planning failed; it is not validated. */
  predicate Fallback(plan: seq<PlannedTask>) {
    |plan| == 1 && plan[0].dependsOn == []
  }

  lemma FallbackAcyclic(plan: seq<PlannedTask>)
    requires Fallback(plan)
    ensures Acyclic(GraphOf(plan))
  {
    var g := GraphOf(plan);
    assert g == map[plan[0].logicalId := {}] by {
      assert plan[..0] == [] && GraphOf(plan[..0]) == map[];
      assert ToSet(plan[0].dependsOn) == {};
    }
    RankedHasNoCycle(g, map[plan[0].logicalId := 0]);
  }

  lemma ValidatedAcyclic(plan: seq<PlannedTask>, maxTasks: nat)
    requires Validated(plan, maxTasks)
    ensures Acyclic(GraphOf(plan))
  {
    PlanGraphClosed(plan);
  }

  lemma NothingPlanted(db: DB, j: JobId, plan: seq<PlannedTask>)
    requires TasksOf(db, j) == map[]
    ensures Planted(TasksOf(db, j), GraphOf(plan[..0])) && Accounted(db, j, {})
  {
    assert forall t :: t in TasksOf(db, j) <==> t in db.tasks && TaskOf(db, t, j);
    assert GraphOf(plan[..0]) == map[];
  }

  /** Storing an accepted plan, or the fallback, for a job without tasks makes the job schedulable. */
  lemma PlannedJobIsSchedulable(db: DB, j: JobId, ids: seq<TaskId>, plan: seq<PlannedTask>, maxTasks: nat)
    requires |ids| == |plan| && TasksOf(db, j) == map[] && Store.AddTasks(db, j, ids, plan).Ok?
    requires Validated(plan, maxTasks) || Fallback(plan)
    ensures Schedulable(Store.AddTasks(db, j, ids, plan).value, j)
  {
    PlanAcyclic(plan, maxTasks);
    PlanPlanted(db, j, ids, plan);
  }

  lemma PlanAcyclic(plan: seq<PlannedTask>, maxTasks: nat)
    requires Validated(plan, maxTasks) || Fallback(plan)
    ensures Acyclic(GraphOf(plan))
  {
    if Fallback(plan) { FallbackAcyclic(plan); } else { ValidatedAcyclic(plan, maxTasks); }
  }

  lemma PlanPlanted(db: DB, j: JobId, ids: seq<TaskId>, plan: seq<PlannedTask>)
    requires |ids| == |plan| && TasksOf(db, j) == map[] && Store.AddTasks(db, j, ids, plan).Ok?
    ensures var after := Store.AddTasks(db, j, ids, plan).value;
      Planted(TasksOf(after, j), GraphOf(plan)) && Accounted(after, j, {})
  {
    NothingPlanted(db, j, plan);
    InsertPlants(db, j, MaxSeq(db, j), ids, plan, 0);
  }

  /** A job resumed after a stop or a failure is schedulable again. */
  lemma ResumedJobIsSchedulable(db: DB, j: JobId, g: Graph)
    requires Planted(TasksOf(db, j), g) && Acyclic(g) && Store.PrepareResume(db, j).Ok?
    ensures Schedulable(Store.PrepareResume(db, j).value, j)
  {
    var after := Store.PrepareResume(db, j).value;
    ResumeTasks(db, j);
    forall t | t in db.tasks && TaskOf(db, t, j) ensures TaskAdvances(db.tasks[t], after.tasks[t]) {}
    assert Undisturbed(db, after, j, db.tasks.Keys);
    PlantedStays(db, after, j, db.tasks.Keys, g);
  }

  /** Tasks only a resume sets free again. */
  ghost predicate Refused(db: DB, j: JobId) {
    exists t <- db.tasks :: TaskOf(db, t, j)
      && (db.tasks[t].state.Failed? || db.tasks[t].state.Blocked? || db.tasks[t].state.Stopped?)
  }

  /** Recovery puts the tasks in flight of an interrupted job back, and leaves the others as they are. */
  lemma RecoveredTasks(db: DB, j: JobId)
    requires Owned(db) && j in ActiveIds(db)
    ensures var after := RecoveredRows(db);
      TasksOf(after, j) == map t | t in TasksOf(db, j) :: SettledTask(db.tasks[t], TaskState.Pending, "")
  {
    RecoveredSlice(db, j);
    assert SliceOf(RecoveredRows(db), j).tasks == TasksOf(RecoveredRows(db), j);
  }

  lemma SameGraph(x: map<TaskId, Task>, y: map<TaskId, Task>, g: Graph)
    requires Planted(x, g) && y.Keys == x.Keys
    requires forall t <- x :: y[t].logicalId == x[t].logicalId && y[t].dependencies == x[t].dependencies
    ensures Planted(y, g)
  {
    forall n | n in g ensures exists t <- y :: y[t].logicalId == n {
      var t :| t in x && x[t].logicalId == n;
      assert t in y && y[t].logicalId == n;
    }
  }

  lemma RefusedStays(db: DB, after: DB, j: JobId)
    requires TasksOf(after, j) == map t | t in TasksOf(db, j) :: SettledTask(db.tasks[t], TaskState.Pending, "")
    requires Refused(db, j)
    ensures !Accounted(after, j, {})
  {
    var t :| t in db.tasks && TaskOf(db, t, j)
             && (db.tasks[t].state.Failed? || db.tasks[t].state.Blocked? || db.tasks[t].state.Stopped?);
    assert t in TasksOf(db, j);
    assert t in TasksOf(after, j) && TasksOf(after, j)[t] == db.tasks[t];
  }

  lemma OthersAccounted(db: DB, after: DB, j: JobId)
    requires TasksOf(after, j) == map t | t in TasksOf(db, j) :: SettledTask(db.tasks[t], TaskState.Pending, "")
    requires !Refused(db, j)
    ensures Accounted(after, j, {})
  {
    forall t | t in after.tasks && TaskOf(after, t, j)
      ensures after.tasks[t].state.Pending? || after.tasks[t].state.Completed?
    {
      assert t in TasksOf(after, j);
      assert t in TasksOf(db, j) && after.tasks[t] == SettledTask(db.tasks[t], TaskState.Pending, "");
    }
  }

  lemma SchedulableUnlessRefused(db: DB, after: DB, j: JobId, g: Graph)
    requires Planted(TasksOf(db, j), g) && Acyclic(g)
    requires TasksOf(after, j) == map t | t in TasksOf(db, j) :: SettledTask(db.tasks[t], TaskState.Pending, "")
    ensures Schedulable(after, j) <==> !Refused(db, j)
  {
    if Refused(db, j) {
      RefusedStays(db, after, j);
    } else {
      OthersAccounted(db, after, j);
      PutBackPlanted(db, after, j, g);
    }
  }

  lemma PutBackPlanted(db: DB, after: DB, j: JobId, g: Graph)
    requires Planted(TasksOf(db, j), g)
    requires TasksOf(after, j) == map t | t in TasksOf(db, j) :: SettledTask(db.tasks[t], TaskState.Pending, "")
    ensures Planted(TasksOf(after, j), g)
  {
    forall t | t in TasksOf(db, j)
      ensures TasksOf(after, j)[t].logicalId == TasksOf(db, j)[t].logicalId
      ensures TasksOf(after, j)[t].dependencies == TasksOf(db, j)[t].dependencies
    {
      assert TasksOf(after, j)[t] == SettledTask(db.tasks[t], TaskState.Pending, "");
    }
    SameGraph(TasksOf(db, j), TasksOf(after, j), g);
  }

  /** An interrupted job is handed back schedulable exactly when no task of it had failed, was blocked or
      stopped: recovery does not give those another chance. */
  lemma RecoveredJobIsSchedulable(db: DB, j: JobId, g: Graph)
    requires Owned(db) && j in ActiveIds(db) && Planted(TasksOf(db, j), g) && Acyclic(g)
    ensures Schedulable(RecoveredRows(db), j) <==> !Refused(db, j)
  {
    RecoveredTasks(db, j);
    SchedulableUnlessRefused(db, RecoveredRows(db), j, g);
  }

  // ---- waiting -------------------------------------------------------------------------

  /** How a worker's handle ends. */
  datatype Finish = Returned(ok: bool) | Raised | WasCancelled

  /** While the scheduler waits, the rows of the job's other tasks stay as they are and a worker
      only advances its own task. */
  predicate Undisturbed(before: DB, after: DB, j: JobId, active: set<TaskId>) {
    && (j in before.jobs ==> j in after.jobs)
    && (forall t <- before.tasks :: TaskOf(before, t, j) ==>
          && t in after.tasks && TaskAdvances(before.tasks[t], after.tasks[t])
          && (t !in active ==> after.tasks[t] == before.tasks[t]))
    && (forall t <- after.tasks :: TaskOf(after, t, j) ==> TaskOf(before, t, j))
  }

  /** At least one handle ended, and one that returned true left its task completed. */
  predicate Collected(after: DB, j: JobId, active: set<TaskId>, done: map<TaskId, Finish>) {
    && done != map[] && done.Keys <= active
    && forall t <- done :: done[t] == Returned(true) ==> TaskOf(after, t, j) && after.tasks[t].state.Completed?
  }

  /** Writes others make meanwhile: workers to the tasks they own, users to the job, anyone to other jobs. */
  ghost predicate Bystander(db: DB, j: JobId, active: set<TaskId>, s: Step) {
    match s
    case SAddTasks(k, _, _) => k != j
    case SUpdateTask(t, _) => t in active || !TaskOf(db, t, j)
    case SRetry(k) => k != j
    case SSettle(k, _, _, _) => k != j
    case SResume(k) => k != j
    case SRecover => false
    case _ => true
  }

  lemma InsertForeign(db: DB, k: JobId, start: nat, ids: seq<TaskId>, plan: seq<PlannedTask>, i: nat, j: JobId)
    requires |ids| == |plan| && i <= |plan| && k != j
    requires InsertTasks(db, k, start, ids, plan, i).Ok?
    ensures var after := InsertTasks(db, k, start, ids, plan, i).value;
      && (forall t <- after.tasks :: TaskOf(after, t, j) ==> TaskOf(db, t, j))
      && (forall t <- db.tasks :: TaskOf(db, t, j) ==> t in after.tasks && after.tasks[t] == db.tasks[t])
    decreases |plan| - i
  {
    if i < |plan| {
      var next := db.(tasks := db.tasks[ids[i] := NewTask(k, start + i + 1, plan[i])]);
      InsertForeign(next, k, start, ids, plan, i + 1, j);
    }
  }

  /** No task of the job appears, and only active ones change. */
  ghost predicate OthersKept(before: DB, after: DB, j: JobId, active: set<TaskId>) {
    && (forall t <- before.tasks :: TaskOf(before, t, j) && t !in active ==>
          t in after.tasks && after.tasks[t] == before.tasks[t])
    && (forall t <- after.tasks :: TaskOf(after, t, j) ==> TaskOf(before, t, j))
  }

  lemma StepKeepsOthers(h: string -> string, db: DB, after: DB, j: JobId, active: set<TaskId>, s: Step)
    requires Bystander(db, j, active, s) && Try(h, db, s) == Ok(after)
    ensures OthersKept(db, after, j, active)
  {
    match s
    case SAddTasks(k, ids, plan) => InsertForeign(db, k, MaxSeq(db, k), ids, plan, 0, j);
    case SUpdateTask(t, p) => UpdateKeepsOthers(db, j, active, t, p);
    case SRetry(k) => BulkKeepsOthers(h, db, after, j, active, s);
    case SResume(k) => BulkKeepsOthers(h, db, after, j, active, s);
    case SSettle(k, ts, ats, summary) => SettleKeepsOthers(db, j, active, k, ts, ats, summary);
    case _ => TasksUntouched(h, db, after, s);
  }

  lemma BulkKeepsOthers(h: string -> string, db: DB, after: DB, j: JobId, active: set<TaskId>, s: Step)
    requires (s.SRetry? || s.SResume?) && s.j != j && Try(h, db, s) == Ok(after)
    ensures OthersKept(db, after, j, active)
  {
    if s.SResume? { ResumeTasks(db, s.j); }
    assert after.tasks == ResetTasks(db, s.j).tasks;
    ResetKeepsOthers(db, s.j, j, active);
  }

  lemma TasksUntouched(h: string -> string, db: DB, after: DB, s: Step)
    requires Try(h, db, s) == Ok(after)
    requires !s.SAddTasks? && !s.SUpdateTask? && !s.SRetry? && !s.SResume? && !s.SSettle? && !s.SRecover?
    ensures after.tasks == db.tasks
  {
  }

  lemma ResetKeepsOthers(db: DB, k: JobId, j: JobId, active: set<TaskId>)
    requires k != j
    ensures OthersKept(db, ResetTasks(db, k), j, active)
  {
  }

  lemma ResumeTasks(db: DB, k: JobId)
    requires PrepareResume(db, k).Ok?
    ensures PrepareResume(db, k).value.tasks == ResetTasks(db, k).tasks
  {
  }

  lemma UpdateKeepsOthers(db: DB, j: JobId, active: set<TaskId>, t: TaskId, p: TaskPatch)
    requires t in active || !TaskOf(db, t, j)
    requires UpdateTask(db, t, p).Ok?
    ensures OthersKept(db, UpdateTask(db, t, p).value, j, active)
  {
  }

  lemma SettleKeepsOthers(db: DB, j: JobId, active: set<TaskId>, k: JobId, ts: TaskState, ats: AttemptState,
                          summary: string)
    requires k != j && SettleInflight(db, k, ts, ats, summary).Ok?
    ensures OthersKept(db, SettleInflight(db, k, ts, ats, summary).value, j, active)
  {
  }

  lemma AdvancesTasks(before: DB, after: DB, j: JobId, t: TaskId)
    requires Advances(before, after) && j in before.jobs && t in before.tasks && TaskOf(before, t, j)
    ensures t in after.tasks && TaskAdvances(before.tasks[t], after.tasks[t])
  {
    assert SliceAdvances(SliceOf(before, j), SliceOf(after, j));
    assert t in SliceOf(before, j).tasks;
  }

  lemma BystanderUndisturbed(h: string -> string, db: DB, j: JobId, active: set<TaskId>, s: Step)
    requires Inv(h, db) && Bystander(db, j, active, s) && j in db.jobs
    ensures Undisturbed(db, Exec(h, db, s), j, active)
  {
    var after := Exec(h, db, s);
    assert Advances(db, after) by { ExecKeeps(h, db, s); }
    assert OthersKept(db, after, j, active) by {
      if Try(h, db, s).Ok? { StepKeepsOthers(h, db, after, j, active, s); }
    }
    forall t | t in db.tasks && TaskOf(db, t, j)
      ensures t in after.tasks && TaskAdvances(db.tasks[t], after.tasks[t])
    {
      AdvancesTasks(db, after, j, t);
    }
  }

  ghost predicate Bystanders(h: string -> string, db: DB, j: JobId, active: set<TaskId>, steps: seq<Step>)
    decreases |steps|
  {
    steps == [] || (Bystander(db, j, active, steps[0]) && Bystanders(h, Exec(h, db, steps[0]), j, active, steps[1..]))
  }

  /** Any run of such writes leaves the scheduler's picture of the job undisturbed. */
  lemma {:induction false} BystandersUndisturbed(h: string -> string, db: DB, j: JobId, active: set<TaskId>,
                                                 steps: seq<Step>)
    requires Inv(h, db) && Bystanders(h, db, j, active, steps) && j in db.jobs
    ensures Undisturbed(db, Run(h, db, steps), j, active)
    decreases |steps|
  {
    if steps != [] {
      ExecKeeps(h, db, steps[0]);
      BystanderUndisturbed(h, db, j, active, steps[0]);
      BystandersUndisturbed(h, Exec(h, db, steps[0]), j, active, steps[1..]);
    }
  }

  // ---- progress ------------------------------------------------------------------------

  predicate ReadyTask(db: DB, j: JobId, active: set<TaskId>, t: TaskId) {
    && TaskOf(db, t, j) && db.tasks[t].state.Pending? && t !in active
    && forall d <- db.tasks[t].dependencies ::
         exists u <- db.tasks :: TaskOf(db, u, j) && db.tasks[u].state.Completed? && db.tasks[u].logicalId == d
  }

  predicate AllCompleted(db: DB, j: JobId) {
    forall t <- db.tasks :: TaskOf(db, t, j) ==> db.tasks[t].state.Completed?
  }

  /** With no handle active, an acyclic graph with unfinished work has a task that can start. */
  lemma SomethingIsReady(db: DB, j: JobId, g: Graph)
    requires Accounted(db, j, {}) && Planted(TasksOf(db, j), g) && Acyclic(g) && !AllCompleted(db, j)
    ensures exists t <- db.tasks :: ReadyTask(db, j, {}, t)
  {
    var rows := TasksOf(db, j);
    var unfinished := set t | t in rows && !rows[t].state.Completed? :: rows[t].logicalId;
    var t0 :| t0 in db.tasks && TaskOf(db, t0, j) && !db.tasks[t0].state.Completed?;
    assert t0 in rows && rows[t0].logicalId in unfinished;
    SomeNodeIsFree(g, unfinished);
    var n :| n in unfinished && g[n] !! unfinished;
    var t :| t in rows && !rows[t].state.Completed? && rows[t].logicalId == n;
    forall d | d in db.tasks[t].dependencies
      ensures exists u <- db.tasks :: TaskOf(db, u, j) && db.tasks[u].state.Completed? && db.tasks[u].logicalId == d
    {
      assert d in g[n] && d in g;
      var u :| u in rows && rows[u].logicalId == d;
      assert u in db.tasks && TaskOf(db, u, j);
    }
    assert ReadyTask(db, j, {}, t);
  }

  /** Tasks that still cost the loop a round. */
  ghost function Open(db: DB, j: JobId, active: set<TaskId>): set<TaskId> {
    set t | t in db.tasks && TaskOf(db, t, j) && (!db.tasks[t].state.Completed? || t in active)
  }

  lemma PlantedStays(before: DB, after: DB, j: JobId, active: set<TaskId>, g: Graph)
    requires Undisturbed(before, after, j, active) && Planted(TasksOf(before, j), g)
    ensures Planted(TasksOf(after, j), g)
  {
    forall n | n in g ensures exists t <- TasksOf(after, j) :: TasksOf(after, j)[t].logicalId == n {
      var t :| t in TasksOf(before, j) && TasksOf(before, j)[t].logicalId == n;
      assert t in TasksOf(after, j);
    }
    forall t | t in TasksOf(after, j)
      ensures after.tasks[t].logicalId in g && g[after.tasks[t].logicalId] == ToSet(after.tasks[t].dependencies)
    {
      assert t in TasksOf(before, j) && TaskAdvances(before.tasks[t], after.tasks[t]);
    }
  }

  lemma OpenShrinks(before: DB, after: DB, j: JobId, active: set<TaskId>, done: map<TaskId, Finish>)
    requires Undisturbed(before, after, j, active) && Collected(after, j, active, done)
    requires forall t <- done :: done[t] == Returned(true)
    ensures |Open(after, j, active - done.Keys)| < |Open(before, j, active)|
    ensures Accounted(before, j, active) ==> Accounted(after, j, active - done.Keys)
  {
    var x, y := Open(before, j, active), Open(after, j, active - done.Keys);
    var t :| t in done;
    assert t in x && t !in y && y <= x;
    Fewer(x, y, t);
  }

  /** Starting ready tasks opens no new work. */
  lemma LaunchOpens(db: DB, j: JobId, before: set<TaskId>, after: set<TaskId>)
    requires before <= after && forall t <- after - before :: ReadyTask(db, j, before, t)
    ensures Open(db, j, after) == Open(db, j, before)
    ensures Accounted(db, j, before) ==> Accounted(db, j, after)
  {
    forall t | t in after - before ensures TaskOf(db, t, j) && !db.tasks[t].state.Completed? {
      assert ReadyTask(db, j, before, t);
    }
    forall t ensures t in Open(db, j, after) <==> t in Open(db, j, before) {}
  }

  lemma Fewer(x: set<TaskId>, y: set<TaskId>, t: TaskId)
    requires y <= x && t in x && t !in y
    ensures |y| < |x|
  {
    var rest := x - y - {t};
    assert x == (y + rest) + {t} && y !! rest;
  }

  // ---- the loop ------------------------------------------------------------------------

  /** A handle that failed, raised or was cancelled. */
  ghost predicate Explains(ended: map<TaskId, Finish>, r: DagResult) {
    || (r.TaskFailed? && exists t <- ended :: ended[t] == Raised || ended[t] == Returned(false))
    || (r.HandleCancelled? && exists t <- ended :: ended[t] == WasCancelled)
  }

  ghost predicate RowFailed(db: DB, j: JobId) {
    exists t <- db.tasks :: TaskOf(db, t, j) && db.tasks[t].state.Failed?
  }

  predicate NoRepeats(s: seq<TaskId>) {
    forall i, k :: 0 <= i < k < |s| ==> s[i] != s[k]
  }

  /** part is a selection from all, at these positions below n, in the same order. */
  ghost predicate Picks(part: seq<TaskId>, all: seq<TaskId>, at: seq<nat>, n: nat) {
    && |at| == |part| && n <= |all|
    && (forall k :: 0 <= k < |at| ==> at[k] < n && all[at[k]] == part[k])
    && (forall i, k :: 0 <= i < k < |at| ==> at[i] < at[k])
  }

  function Elements(s: seq<TaskId>): set<TaskId> {
    set t | t in s
  }

  ghost function ReadyOf(db: DB, j: JobId, tasks: seq<TaskId>, active: set<TaskId>): set<TaskId> {
    set t | t in tasks && ReadyTask(db, j, active, t)
  }

  ghost predicate InOrder(part: seq<TaskId>, all: seq<TaskId>) {
    exists at :: Picks(part, all, at, |all|)
  }

  /** Started is a first part of the ready tasks in the order of the rows. */
  ghost predicate FirstOnes(started: set<TaskId>, tasks: seq<TaskId>, ready: set<TaskId>) {
    forall i, k :: 0 <= i < k < |tasks| && tasks[k] in started && tasks[i] in ready ==> tasks[i] in started
  }

  lemma PrefixIsFirst(ready: seq<TaskId>, tasks: seq<TaskId>, n: nat)
    requires InOrder(ready, tasks) && NoRepeats(tasks) && n <= |ready|
    ensures FirstOnes(Elements(ready[..n]), tasks, Elements(ready))
  {
    var at :| Picks(ready, tasks, at, |tasks|);
    forall i, k | 0 <= i < k < |tasks| && tasks[k] in ready[..n] && tasks[i] in ready ensures tasks[i] in ready[..n] {
      var a :| 0 <= a < n && ready[a] == tasks[k];
      var b :| 0 <= b < |ready| && ready[b] == tasks[i];
      assert tasks[at[a]] == tasks[k] && at[a] == k;
      assert tasks[at[b]] == tasks[i] && at[b] == i;
      assert b < a;
      assert ready[b] == ready[..n][b];
    }
  }

  const STALLED := "dependency graph made no schedulable progress"

  /** Everything unfinished of the listed tasks is blocked, with the reason. */
  predicate AllBlocked(db: DB, tasks: seq<TaskId>) {
    forall t <- tasks :: t in db.tasks
      && (db.tasks[t].state.Completed? || (db.tasks[t].state.Blocked? && db.tasks[t].lastError == STALLED))
  }

  datatype DagResult = Finished | StopSeen | TaskFailed | Stalled | HandleCancelled | StoreRefused

  lemma BlockedOne(db: DB, t: TaskId, after: DB)
    requires t in db.tasks
    requires UpdateTask(db, t, TaskPatch(state := Some(TaskState.Blocked), lastError := Some(STALLED))) == Ok(after)
    ensures after.tasks.Keys == db.tasks.Keys && after.tasks[t].state.Blocked? && after.tasks[t].lastError == STALLED
    ensures forall u <- db.tasks :: u != t ==> after.tasks[u] == db.tasks[u]
    ensures after.tasks[t].job == db.tasks[t].job
  {
  }

  ghost predicate Grown(before: set<TaskId>, ready: seq<TaskId>, n: nat, active: set<TaskId>)
    requires n <= |ready|
  {
    active == before + Elements(ready[..n]) && |active| == |before| + n
  }

  lemma OneMore(ready: seq<TaskId>, n: nat, before: set<TaskId>, active: set<TaskId>)
    requires n < |ready| && NoRepeats(ready) && Elements(ready) !! before && Grown(before, ready, n, active)
    ensures Grown(before, ready, n + 1, active + {ready[n]})
  {
    assert ready[..n + 1] == ready[..n] + [ready[n]];
    assert ready[n] in Elements(ready) && ready[n] !in Elements(ready[..n]);
  }

  lemma ReadyIsIdle(db: DB, j: JobId, tasks: seq<TaskId>, ready: seq<TaskId>, active: set<TaskId>)
    requires forall t :: t in ready <==> t in tasks && ReadyTask(db, j, active, t)
    ensures Elements(ready) !! active && Elements(ready) == ReadyOf(db, j, tasks, active)
  {
  }

  lemma Launched(db: DB, j: JobId, tasks: seq<TaskId>, ready: seq<TaskId>, n: nat, before: set<TaskId>)
    requires n <= |ready| && NoRepeats(tasks) && InOrder(ready, tasks) && Elements(ready) == ReadyOf(db, j, tasks, before)
    requires forall t :: t in tasks <==> TaskOf(db, t, j)
    ensures var active := before + Elements(ready[..n]);
      && (forall t <- active - before :: ReadyTask(db, j, before, t))
      && (n == |ready| ==> forall t <- db.tasks :: ReadyTask(db, j, before, t) ==> t in active)
      && FirstOnes(active - before, tasks, ReadyOf(db, j, tasks, before))
  {
    var active := before + Elements(ready[..n]);
    PrefixIsFirst(ready, tasks, n);
    forall t | t in Elements(ready[..n]) ensures t in Elements(ready) && t !in before {}
    assert active - before == Elements(ready[..n]);
    if n == |ready| { assert ready[..n] == ready; }
  }

  /** The tasks started are those with the lowest numbers among the ready ones. */
  ghost predicate LowestFirst(db: DB, j: JobId, before: set<TaskId>, active: set<TaskId>) {
    forall t, u :: ReadyTask(db, j, before, t) && t in active && ReadyTask(db, j, before, u) && u !in active ==>
      db.tasks[t].seqNo <= db.tasks[u].seqNo
  }

  /** Rows listed by their number: what was started comes before what was not. */
  lemma InSeqOrder(db: DB, j: JobId, tasks: seq<TaskId>, before: set<TaskId>, active: set<TaskId>)
    requires forall t :: t in tasks <==> TaskOf(db, t, j)
    requires forall t <- tasks :: t in db.tasks
    requires forall i, k :: 0 <= i < k < |tasks| ==> db.tasks[tasks[i]].seqNo <= db.tasks[tasks[k]].seqNo
    requires forall t <- active - before :: ReadyTask(db, j, before, t)
    requires FirstOnes(active - before, tasks, ReadyOf(db, j, tasks, before))
    ensures LowestFirst(db, j, before, active)
  {
    forall t, u | ReadyTask(db, j, before, t) && t in active && ReadyTask(db, j, before, u) && u !in active
      ensures db.tasks[t].seqNo <= db.tasks[u].seqNo
    {
      var k :| 0 <= k < |tasks| && tasks[k] == t;
      var i :| 0 <= i < |tasks| && tasks[i] == u;
      assert i == k || i > k || (i < k && u in active - before);
    }
  }

  /** No task of the job is left to run: each is completed or blocked. */
  predicate Parked(db: DB, j: JobId) {
    forall t <- db.tasks :: TaskOf(db, t, j) ==>
      db.tasks[t].state.Completed? || (db.tasks[t].state.Blocked? && db.tasks[t].lastError == STALLED)
  }

  class Scheduler {
    const db: Database
    const maxParallel: nat
    var active: set<TaskId>      // the names of the handles that are not done
    ghost var peak: nat          // the most handles ever active at once
    ghost var ended: map<TaskId, Finish>   // what the last wait collected

    constructor (db: Database, maxParallel: nat)
      ensures this.db == db && this.maxParallel == maxParallel && active == {} && peak == 0 && ended == map[]
    {
      this.db, this.maxParallel, active, peak, ended := db, maxParallel, {}, 0, map[];
    }

    /** The ready tasks in order. */
    method Ready(j: JobId, tasks: seq<TaskId>) returns (ready: seq<TaskId>)
      requires NoRepeats(tasks)
      ensures NoRepeats(ready) && InOrder(ready, tasks)
      ensures forall t :: t in ready <==> t in tasks && ReadyTask(db.View(), j, active, t)
    {
      ready := [];
      ghost var at: seq<nat> := [];
      for i := 0 to |tasks|
        invariant NoRepeats(ready) && Picks(ready, tasks, at, i)
        invariant forall t :: t in ready <==> t in tasks[..i] && ReadyTask(db.View(), j, active, t)
      {
        assert tasks[i] !in tasks[..i];
        if ReadyTask(db.View(), j, active, tasks[i]) { ready, at := ready + [tasks[i]], at + [i]; }
        assert tasks[..i + 1] == tasks[..i] + [tasks[i]];
      }
      assert Picks(ready, tasks, at, |tasks|);
    }

    /** Create handles for ready tasks until the limit: it is reached, or nothing ready is left over. */
    method Launch(j: JobId, tasks: seq<TaskId>)
      requires forall t :: t in tasks <==> TaskOf(db.View(), t, j)
      requires NoRepeats(tasks) && |active| <= maxParallel
      modifies this`active, this`peak
      ensures old(active) <= active && |active| <= maxParallel && peak >= old(peak) >= 0
      ensures peak == old(peak) || peak == |active|
      ensures forall t <- active - old(active) :: ReadyTask(db.View(), j, old(active), t)
      ensures |active| == maxParallel || forall t <- db.tasks :: ReadyTask(db.View(), j, old(active), t) ==> t in active
      ensures FirstOnes(active - old(active), tasks, ReadyOf(db.View(), j, tasks, old(active)))
    {
      var ready := Ready(j, tasks);
      ghost var before := active;
      ReadyIsIdle(db.View(), j, tasks, ready, active);
      var n := StartFirst(ready, maxParallel - |active|);
      Launched(db.View(), j, tasks, ready, n, before);
      if |active| > peak { peak := |active|; }
    }

    /** ready[: max(0, capacity)], one handle each. */
    method StartFirst(ready: seq<TaskId>, capacity: nat) returns (n: nat)
      requires NoRepeats(ready) && Elements(ready) !! active
      modifies this`active
      ensures n == (if |ready| < capacity then |ready| else capacity)
      ensures active == old(active) + Elements(ready[..n]) && |active| == |old(active)| + n
    {
      ghost var before := active;
      n := 0;
      while n < |ready| && n < capacity
        invariant n <= |ready| && n <= capacity && Grown(before, ready, n, active)
      {
        OneMore(ready, n, before, active);
        active := active + {ready[n]};
        n := n + 1;
      }
    }

    /** asyncio.wait(FIRST_COMPLETED): others run, any way the relation allows, until a handle ends. */
    method Wait(j: JobId) returns (done: map<TaskId, Finish>)
      requires active != {}
      modifies db
      ensures Undisturbed(old(db.View()), db.View(), j, active) && Collected(db.View(), j, active, done)
    {
      var next: DB, ended: map<TaskId, Finish> := *, *;
      if !Undisturbed(db.View(), next, j, active) || !Collected(next, j, active, ended) {
        var t :| t in active;
        next, ended := db.View(), map[t := Raised];
        assert t in ended;
      }
      db.jobs, db.tasks, db.attempts := next.jobs, next.tasks, next.attempts;
      db.dossiers, db.events := next.dossiers, next.events;
      assert db.View() == next;
      return ended;
    }

    /** The handles that ended, in any order; the first that did not return true decides. */
    method Collect(done: map<TaskId, Finish>) returns (bad: Option<DagResult>)
      ensures bad.None? <==> forall t <- done :: done[t] == Returned(true)
      ensures bad.Some? ==> Explains(done, bad.value)
    {
      var left := done.Keys;
      while left != {}
        invariant left <= done.Keys && forall t <- done.Keys - left :: done[t] == Returned(true)
        decreases left
      {
        var t :| t in left;
        match done[t] {
          case WasCancelled => return Some(HandleCancelled);
          case Raised => return Some(TaskFailed);
          case Returned(ok) => if !ok { return Some(TaskFailed); }
        }
        left := left - {t};
      }
      return None;
    }

    method BlockTask(t: TaskId) returns (ok: bool)
      requires t in db.tasks
      modifies db
      ensures db.tasks.Keys == old(db.tasks.Keys) && db.tasks[t].job == old(db.tasks[t].job)
      ensures forall u <- db.tasks :: u != t ==> db.tasks[u] == old(db.tasks[u])
      ensures ok ==> db.tasks[t].state.Blocked? && db.tasks[t].lastError == STALLED
      ensures !ok ==> db.View() == old(db.View())
    {
      ghost var before := db.View();
      var w := db.UpdateTask(t, TaskPatch(state := Some(TaskState.Blocked), lastError := Some(STALLED)));
      if w.Ok? { BlockedOne(before, t, db.View()); }
      return w.Ok?;
    }

    /** Block what remains; a transition the tables refuse escapes as its own error. */
    method Block(tasks: seq<TaskId>) returns (r: DagResult)
      requires NoRepeats(tasks) && forall t <- tasks :: t in db.tasks
      modifies db
      ensures r.Stalled? || r.StoreRefused?
      ensures r.Stalled? ==> AllBlocked(db.View(), tasks)
      ensures db.tasks.Keys == old(db.tasks.Keys) && forall t <- db.tasks :: db.tasks[t].job == old(db.tasks[t].job)
    {
      for i := 0 to |tasks|
        invariant db.tasks.Keys == old(db.tasks.Keys) && forall t <- db.tasks :: db.tasks[t].job == old(db.tasks[t].job)
        invariant AllBlocked(db.View(), tasks[..i])
      {
        assert tasks[i] !in tasks[..i];
        if !db.tasks[tasks[i]].state.Completed? {
          var ok := BlockTask(tasks[i]);
          if !ok { return StoreRefused; }
        }
        assert tasks[..i + 1] == tasks[..i] + [tasks[i]];
      }
      assert tasks[..|tasks|] == tasks;
      return Stalled;
    }

    ghost predicate Sound(j: JobId, g: Graph)
      reads this, db
    {
      Accounted(db.View(), j, active) && Planted(TasksOf(db.View(), j), g) && Acyclic(g)
    }

    /** One wait and what follows from it for the next round. */
    method Round(j: JobId, ghost g: Graph) returns (bad: Option<DagResult>)
      requires j in db.jobs && active != {}
      modifies db, this`active, this`ended
      ensures j in db.jobs && |active| <= |old(active)|
      ensures bad.None? ==> |Open(db.View(), j, active)| < |Open(old(db.View()), j, old(active))|
      ensures bad.None? && old(Sound(j, g)) ==> Sound(j, g)
      ensures bad.Some? ==> Explains(ended, bad.value)
      ensures bad.None? <==> forall t <- ended :: ended[t] == Returned(true)
      ensures active == old(active) - ended.Keys
    {
      var done := Wait(j);
      ended := done;
      assert active == (active - done.Keys) + done.Keys;
      active := active - done.Keys;
      bad := Collect(done);
      if bad.None? {
        OpenShrinks(old(db.View()), db.View(), j, old(active), done);
        if old(Sound(j, g)) { PlantedStays(old(db.View()), db.View(), j, old(active), g); }
      }
    }

    /** The part of a round before the wait. With work left and something sound to schedule it goes on. */
    method Schedule(j: JobId, ghost g: Graph) returns (r: Option<DagResult>)
      requires j in db.jobs && |active| <= maxParallel && peak <= maxParallel
      modifies this`active, this`peak, db
      ensures |active| <= maxParallel && peak <= maxParallel
      ensures r.None? ==> active != {} && db.View() == old(db.View())
      ensures r.None? ==> Open(db.View(), j, active) == Open(db.View(), j, old(active))
      ensures r.None? && old(Sound(j, g)) ==> Sound(j, g)
      ensures r == Some(Finished) ==> AllCompleted(db.View(), j)
      ensures r == Some(TaskFailed) ==> RowFailed(db.View(), j)
      ensures old(RowFailed(db.View(), j)) ==>
                db.View() == old(db.View()) && r == Some(if db.jobs[j].stopRequested then StopSeen else TaskFailed)
      ensures r != Some(HandleCancelled)
      ensures r == Some(StopSeen) <==> old(db.jobs[j].stopRequested)
      ensures r.Some? && r != Some(Stalled) && r != Some(StoreRefused) ==> db.View() == old(db.View())
      ensures r == Some(StopSeen) || r == Some(TaskFailed) ==> active == old(active)
      ensures r == Some(Finished) ==> active == old(active)
      ensures r.None? ==> forall t <- active - old(active) :: ReadyTask(db.View(), j, old(active), t)
      ensures r.None? ==> LowestFirst(db.View(), j, old(active), active)
      ensures r == Some(Stalled) || r == Some(StoreRefused) ==>
                active == old(active) == {} && !old(AllCompleted(db.View(), j))
                && (maxParallel == 0 || forall t <- old(db.tasks) :: !old(ReadyTask(db.View(), j, {}, t)))
      ensures r == Some(Stalled) ==> Parked(db.View(), j)
      ensures maxParallel >= 1 && old(Sound(j, g)) ==> r != Some(Stalled) && r != Some(StoreRefused)
    {
      if db.jobs[j].stopRequested { return Some(StopSeen); }
      var tasks := db.ListTasks(j);
      if exists t <- tasks :: db.tasks[t].state.Failed? { return Some(TaskFailed); }
      if tasks != [] && AllCompleted(db.View(), j) { return Some(Finished); }
      Launch(j, tasks);
      LaunchOpens(db.View(), j, old(active), active);
      InSeqOrder(db.View(), j, tasks, old(active), active);
      if active != {} { return None; }
      if AllCompleted(db.View(), j) { return Some(Finished); }
      if maxParallel >= 1 && old(Sound(j, g)) {
        SomethingIsReady(db.View(), j, g);
        assert false;
      }
      var blocked := Block(tasks);
      return Some(blocked);
    }

    /** _execute_dag. It ends as long as every wait does. A job handed over with a stop request or a FAILED
        row ends as stopped or failed at once, and nothing is started or blocked. */
    method ExecuteDag(j: JobId) returns (r: DagResult)
      requires j in db.jobs && active == {} && peak == 0
      modifies this, db
      ensures r.Finished? ==> AllCompleted(db.View(), j)
      ensures r.Finished? ==> j in db.jobs && !db.jobs[j].stopRequested
      ensures r.StopSeen? ==> j in db.jobs && db.jobs[j].stopRequested
      ensures old(db.jobs[j].stopRequested) ==> r.StopSeen? && active == {} && db.View() == old(db.View())
      ensures r.Stalled? ==> Parked(db.View(), j) && active == {}
      ensures r.TaskFailed? || r.HandleCancelled? ==> RowFailed(db.View(), j) || Explains(ended, r)
      ensures |active| <= maxParallel && peak <= maxParallel
      ensures maxParallel >= 1 && old(Schedulable(db.View(), j)) ==> !r.Stalled? && !r.StoreRefused?
      ensures old(RowFailed(db.View(), j)) ==>
                db.View() == old(db.View()) && r == if db.jobs[j].stopRequested then StopSeen else TaskFailed
    {
      ghost var start := db.View();
      ghost var sound, g := maxParallel >= 1 && Schedulable(db.View(), j), GraphFor(db.View(), j);
      while true
        invariant j in db.jobs && |active| <= maxParallel && peak <= maxParallel
        invariant sound ==> Sound(j, g)
        invariant RowFailed(start, j) || start.jobs[j].stopRequested ==> db.View() == start && active == {}
        decreases |Open(db.View(), j, active)|
      {
        var now := Schedule(j, g);
        if now.Some? { return now.value; }
        var bad := Round(j, g);
        if bad.Some? { return bad.value; }
      }
    }
  }
}
