/** Attempt numbers over the whole life of a task: runs of its worker, crashes at any write, recoveries,
    stops and resumes. */
module Numbering {
  import opened Model
  import opened Store
  import opened Worker

  /** The attempts of a task with their numbers. */
  ghost function NumbersOf(db: DB, t: TaskId): map<AttemptId, int> {
    map a | a in db.attempts && db.attempts[a].task == t :: db.attempts[a].number
  }

  /** No recorded number exceeds the counter of the task. */
  ghost predicate Numbered(db: DB, t: TaskId) {
    forall a <- NumbersOf(db, t) :: t in db.tasks && NumbersOf(db, t)[a] <= db.tasks[t].attempts
  }

  /** No attempt is lost or renumbered, and every new one is numbered above all that were there. */
  ghost predicate Onward(before: DB, after: DB, t: TaskId) {
    var x, y := NumbersOf(before, t), NumbersOf(after, t);
    && (forall a <- x :: a in y && y[a] == x[a])
    && (forall a, b :: a in y && a !in x && b in x ==> x[b] < y[a])
  }

  /** How anyone numbers attempts of the task: the counter is never set back, and an attempt is started
      under the number the counter shows. Every write but these two is free. */
  ghost predicate Disciplined(db: DB, s: Step, t: TaskId) {
    match s
    case SUpdateTask(u, p) => u == t && t in db.tasks && p.attempts.Some? ==> p.attempts.value >= db.tasks[t].attempts
    case SStartAttempt(_, _, u, n, _, _, _, _) => u == t && t in db.tasks ==> n == db.tasks[t].attempts
    case _ => true
  }

  ghost predicate DisciplinedRun(h: string -> string, db: DB, steps: seq<Step>, t: TaskId)
    decreases |steps|
  {
    steps == [] || (Disciplined(db, steps[0], t) && DisciplinedRun(h, Exec(h, db, steps[0]), steps[1..], t))
  }

  // ---- one write -----------------------------------------------------------------------

  lemma SameNumbers(db: DB, after: DB, t: TaskId)
    requires Numbered(db, t) && after.attempts.Keys == db.attempts.Keys
    requires forall a <- db.attempts ::
               after.attempts[a].task == db.attempts[a].task && after.attempts[a].number == db.attempts[a].number
    requires t in db.tasks ==> t in after.tasks && db.tasks[t].attempts <= after.tasks[t].attempts
    ensures Numbered(after, t) && Onward(db, after, t)
  {
    assert NumbersOf(after, t) == NumbersOf(db, t);
  }

  lemma TaskWriteNumbers(h: string -> string, db: DB, after: DB, t: TaskId, u: TaskId, p: TaskPatch)
    requires Numbered(db, t) && Disciplined(db, SUpdateTask(u, p), t) && UpdateTask(db, u, p) == Ok(after)
    ensures Numbered(after, t) && Onward(db, after, t)
  {
    SameNumbers(db, after, t);
  }

  lemma Started(db: DB, after: DB, s: Step)
    requires s.SStartAttempt?
    requires StartAttempt(db, s.a, s.j, s.task, s.number, s.agent, s.worktree, s.branch, s.logPath) == Ok(after)
    ensures s.a !in db.attempts && s.task in db.tasks && after.tasks == db.tasks && !NumberTaken(db, s.task, s.number)
    ensures exists row: Attempt :: row.task == s.task && row.number == s.number && after.attempts == db.attempts[s.a := row]
  {
    assert after.attempts == db.attempts[s.a := after.attempts[s.a]];
  }

  lemma StartNumbers(db: DB, after: DB, t: TaskId, s: Step)
    requires s.SStartAttempt? && Numbered(db, t) && Disciplined(db, s, t)
    requires StartAttempt(db, s.a, s.j, s.task, s.number, s.agent, s.worktree, s.branch, s.logPath) == Ok(after)
    ensures Numbered(after, t) && Onward(db, after, t)
  {
    Started(db, after, s);
    var row: Attempt :| row.task == s.task && row.number == s.number && after.attempts == db.attempts[s.a := row];
    NewNumber(db, after, t, s.a, row);
  }

  lemma NewNumber(db: DB, after: DB, t: TaskId, id: AttemptId, row: Attempt)
    requires Numbered(db, t) && id !in db.attempts && row.task in db.tasks && !NumberTaken(db, row.task, row.number)
    requires row.task == t ==> row.number == db.tasks[t].attempts
    requires after.tasks == db.tasks && after.attempts == db.attempts[id := row]
    ensures Numbered(after, t) && Onward(db, after, t)
  {
    if row.task == t {
      assert NumbersOf(after, t) == NumbersOf(db, t)[id := row.number];
    } else {
      assert NumbersOf(after, t) == NumbersOf(db, t);
    }
  }

  lemma AddNumbers(db: DB, after: DB, t: TaskId, k: JobId, ids: seq<TaskId>, plan: seq<PlannedTask>)
    requires Numbered(db, t) && |ids| == |plan| && AddTasks(db, k, ids, plan) == Ok(after)
    ensures Numbered(after, t) && Onward(db, after, t)
  {
    InsertKeepsAttempts(db, k, MaxSeq(db, k), ids, plan, 0);
    if t in db.tasks { InsertKeepsRows(db, k, MaxSeq(db, k), ids, plan, 0, t); }
    SameNumbers(db, after, t);
  }

  lemma InsertKeepsAttempts(db: DB, k: JobId, start: nat, ids: seq<TaskId>, plan: seq<PlannedTask>, i: nat)
    requires |ids| == |plan| && i <= |plan| && InsertTasks(db, k, start, ids, plan, i).Ok?
    ensures InsertTasks(db, k, start, ids, plan, i).value.attempts == db.attempts
    decreases |plan| - i
  {
    if i < |plan| {
      var next := db.(tasks := db.tasks[ids[i] := NewTask(k, start + i + 1, plan[i])]);
      InsertKeepsAttempts(next, k, start, ids, plan, i + 1);
    }
  }

  /** Recovery, resume, retry and settling close attempts and reset tasks, and number nothing. */
  lemma RetryNumbers(db: DB, after: DB, t: TaskId, j: JobId)
    requires Numbered(db, t) && RetryFailedTasks(db, j) == Ok(after)
    ensures Numbered(after, t) && Onward(db, after, t)
  {
    SameNumbers(db, after, t);
  }

  lemma SettleNumbers(db: DB, after: DB, t: TaskId, j: JobId, ts: TaskState, ats: AttemptState, summary: string)
    requires Numbered(db, t) && SettleInflight(db, j, ts, ats, summary) == Ok(after)
    ensures Numbered(after, t) && Onward(db, after, t)
  {
    SameNumbers(db, after, t);
  }

  lemma ResumeNumbers(db: DB, after: DB, t: TaskId, j: JobId)
    requires Numbered(db, t) && PrepareResume(db, j) == Ok(after)
    ensures Numbered(after, t) && Onward(db, after, t)
  {
    SameNumbers(db, after, t);
  }

  lemma RecoverNumbers(db: DB, after: DB, t: TaskId)
    requires Numbered(db, t) && RecoverIncomplete(db) == Ok(after)
    ensures Numbered(after, t) && Onward(db, after, t)
  {
    SameNumbers(db, after, t);
  }

  lemma FinishNumbers(h: string -> string, db: DB, after: DB, s: Step, t: TaskId)
    requires s.SFinishAttempt? && Numbered(db, t) && Try(h, db, s) == Ok(after)
    ensures Numbered(after, t) && Onward(db, after, t)
  {
    SameNumbers(db, after, t);
  }

  lemma StepOnward(h: string -> string, db: DB, s: Step, t: TaskId)
    requires Numbered(db, t) && Disciplined(db, s, t)
    ensures Numbered(Exec(h, db, s), t) && Onward(db, Exec(h, db, s), t)
  {
    var r := Try(h, db, s);
    if r.Ok? {
      match s
      case SUpdateTask(u, p) => TaskWriteNumbers(h, db, r.value, t, u, p);
      case SStartAttempt(_, _, _, _, _, _, _, _) => StartNumbers(db, r.value, t, s);
      case SAddTasks(k, ids, plan) => AddNumbers(db, r.value, t, k, ids, plan);
      case SFinishAttempt(_, _, _, _) => FinishNumbers(h, db, r.value, s, t);
      case SRetry(j) => RetryNumbers(db, r.value, t, j);
      case SSettle(j, ts, ats, summary) => SettleNumbers(db, r.value, t, j, ts, ats, summary);
      case SResume(j) => ResumeNumbers(db, r.value, t, j);
      case SRecover => RecoverNumbers(db, r.value, t);
      case _ => NoRowsWritten(h, db, r.value, s); SameNumbers(db, r.value, t);
    } else {
      SameNumbers(db, db, t);
    }
  }

  // ---- whole histories -----------------------------------------------------------------

  lemma OnwardTransitive(x: DB, y: DB, z: DB, t: TaskId)
    requires Onward(x, y, t) && Onward(y, z, t)
    ensures Onward(x, z, t)
  {
  }

  lemma {:induction false} RunOnward(h: string -> string, db: DB, steps: seq<Step>, t: TaskId)
    requires Numbered(db, t) && DisciplinedRun(h, db, steps, t)
    ensures Numbered(Run(h, db, steps), t) && Onward(db, Run(h, db, steps), t)
    decreases |steps|
  {
    if steps == [] {
      SameNumbers(db, db, t);
    } else {
      var next := Exec(h, db, steps[0]);
      StepOnward(h, db, steps[0], t);
      RunOnward(h, next, steps[1..], t);
      OnwardTransitive(db, next, Run(h, db, steps), t);
    }
  }

  /** A history is disciplined exactly when both its parts are; so a run of the worker may be cut off by a
      crash after any of its writes and followed by recovery, a resume and the next run. */
  lemma {:induction false} DisciplinedParts(h: string -> string, db: DB, first: seq<Step>, rest: seq<Step>, t: TaskId)
    ensures Run(h, db, first + rest) == Run(h, Run(h, db, first), rest)
    ensures DisciplinedRun(h, db, first + rest, t)
            <==> DisciplinedRun(h, db, first, t) && DisciplinedRun(h, Run(h, db, first), rest, t)
    decreases |first|
  {
    if first == [] {
      assert first + rest == rest;
    } else {
      assert (first + rest)[1..] == first[1..] + rest;
      DisciplinedParts(h, Exec(h, db, first[0]), first[1..], rest, t);
    }
  }

  /** Over the whole life of a task, split anywhere: whatever attempts come later are numbered above every
      attempt recorded before. */
  lemma AttemptNumbersIncrease(h: string -> string, first: seq<Step>, rest: seq<Step>, t: TaskId)
    requires DisciplinedRun(h, EmptyDB, first + rest, t)
    ensures Onward(Run(h, EmptyDB, first), Run(h, EmptyDB, first + rest), t)
  {
    DisciplinedParts(h, EmptyDB, first, rest, t);
    RunOnward(h, EmptyDB, first, t);
    RunOnward(h, Run(h, EmptyDB, first), rest, t);
  }

  // ---- states a disciplined history leads to -------------------------------------------

  ghost predicate Follows(h: string -> string, start: DB, now: DB, t: TaskId) {
    exists steps: seq<Step> :: DisciplinedRun(h, start, steps, t) && Run(h, start, steps) == now
  }

  lemma FollowsItself(h: string -> string, db: DB, t: TaskId)
    ensures Follows(h, db, db, t)
  {
    assert DisciplinedRun(h, db, [], t) && Run(h, db, []) == db;
  }

  lemma FollowsOn(h: string -> string, start: DB, now: DB, s: Step, t: TaskId)
    requires Follows(h, start, now, t) && Disciplined(now, s, t)
    ensures Follows(h, start, Exec(h, now, s), t)
  {
    var steps: seq<Step> :| DisciplinedRun(h, start, steps, t) && Run(h, start, steps) == now;
    var next := Exec(h, now, s);
    assert [s][1..] == [];
    assert DisciplinedRun(h, next, [], t) && Run(h, next, []) == next;
    assert DisciplinedRun(h, now, [s], t) && Run(h, now, [s]) == next;
    DisciplinedParts(h, start, steps, [s], t);
  }

  lemma FollowsOnward(h: string -> string, start: DB, now: DB, t: TaskId)
    requires Numbered(start, t) && Follows(h, start, now, t)
    ensures Numbered(now, t) && Onward(start, now, t)
  {
    var steps: seq<Step> :| DisciplinedRun(h, start, steps, t) && Run(h, start, steps) == now;
    RunOnward(h, start, steps, t);
  }
}
