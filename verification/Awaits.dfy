/** What an await of a job's runner leaves room for, once the job is about to be accepted or has been:
    any writes by anyone, but for those of its own acceptance, which only its runner makes. */
module Awaits {
  import opened Model
  import opened Store
  import opened Invariant
  import opened Runs
  import opened DatabaseClass
  import opened Interleaving
  import Apply

  predicate Bystanding(s: Step, j: JobId) {
    s.SPrepare? || s.SMarkApply? || s.SPublish? ==> s.j != j
  }

  /** Time has passed between two states of the store, as far as the runner of j can know. */
  ghost predicate Elapsed(h: string -> string, x: DB, y: DB, j: JobId) {
    exists steps: seq<Step> :: (forall s <- steps :: Bystanding(s, j)) && Run(h, x, steps) == y
  }

  /** The row but for what a stop request or recovery writes. */
  predicate SameButFlags(x: Job, y: Job) {
    y == x.(state := y.state, stopRequested := y.stopRequested, error := y.error)
  }

  /** The phase of a job stays, and once it is accepted so do its row and its dossier. */
  ghost predicate Stays(x: DB, y: DB, j: JobId) {
    j in x.jobs ==>
      && j in y.jobs && y.jobs[j].phase == x.jobs[j].phase
      && (!x.jobs[j].phase.Ordinary? ==>
            && SameButFlags(x.jobs[j], y.jobs[j])
            && (j in x.dossiers ==> j in y.dossiers && y.dossiers[j] == x.dossiers[j]))
  }

  lemma OrdinaryRow(h: string -> string, db: DB, after: DB, s: Step, j: JobId)
    requires Apply.OrdinaryWrite(s) && Try(h, db, s) == Ok(after)
    requires j in db.jobs && !db.jobs[j].phase.Ordinary?
    ensures j in after.jobs && SameButFlags(db.jobs[j], after.jobs[j])
  {
    match s
    case SUpdateJob(k, p) => PatchedRow(db, after, k, p, j);
    case SUpdateTask(t, p) => ActivatedRow(db, after, t, p, j);
    case SRecover => RecoveredOrSame(db, after, j);
    case SAddTasks(k, ids, plan) => Apply.InsertKeepsJobs(db, k, MaxSeq(db, k), ids, plan, 0);
    case _ => RowKept(h, db, after, s, j);
  }

  lemma PatchedRow(db: DB, after: DB, k: JobId, p: JobPatch, j: JobId)
    requires UpdateJob(db, k, p) == Ok(after) && j in db.jobs && !db.jobs[j].phase.Ordinary?
    ensures j in after.jobs && SameButFlags(db.jobs[j], after.jobs[j])
  {
  }

  lemma ActivatedRow(db: DB, after: DB, t: TaskId, p: TaskPatch, j: JobId)
    requires UpdateTask(db, t, p) == Ok(after) && j in db.jobs && !db.jobs[j].phase.Ordinary?
    ensures j in after.jobs && SameButFlags(db.jobs[j], after.jobs[j])
  {
  }

  lemma RecoveredOrSame(db: DB, after: DB, j: JobId)
    requires RecoverIncomplete(db) == Ok(after) && j in db.jobs
    ensures j in after.jobs && SameButFlags(db.jobs[j], after.jobs[j])
  {
    assert after.jobs[j] == RecoveredJob(db, j);
  }

  lemma RowKept(h: string -> string, db: DB, after: DB, s: Step, j: JobId)
    requires Apply.OrdinaryWrite(s) && !s.SUpdateJob? && !s.SUpdateTask? && !s.SRecover? && !s.SAddTasks?
    requires Try(h, db, s) == Ok(after) && j in db.jobs && !db.jobs[j].phase.Ordinary?
    ensures j in after.jobs && after.jobs[j] == db.jobs[j]
  {
  }

  lemma OrdinaryDossier(h: string -> string, db: DB, after: DB, s: Step, j: JobId)
    requires Apply.OrdinaryWrite(s) && Try(h, db, s) == Ok(after)
    requires j in db.jobs && !db.jobs[j].phase.Ordinary? && j in db.dossiers
    ensures j in after.dossiers && after.dossiers[j] == db.dossiers[j]
  {
    if s.SAddTasks? { InsertKeepsDossiers(db, s.j, MaxSeq(db, s.j), s.ids, s.plan, 0); }
  }

  lemma InsertKeepsDossiers(db: DB, j: JobId, start: nat, ids: seq<TaskId>, plan: seq<PlannedTask>, k: nat)
    requires |ids| == |plan| && k <= |plan| && InsertTasks(db, j, start, ids, plan, k).Ok?
    ensures InsertTasks(db, j, start, ids, plan, k).value.dossiers == db.dossiers
    decreases |plan| - k
  {
    if k < |plan| {
      InsertKeepsDossiers(db.(tasks := db.tasks[ids[k] := NewTask(j, start + k + 1, plan[k])]), j, start, ids, plan, k + 1);
    }
  }

  lemma OthersJournal(h: string -> string, db: DB, after: DB, s: Step, j: JobId)
    requires (s.SPrepare? || s.SMarkApply? || s.SPublish?) && s.j != j && j in db.jobs && Try(h, db, s) == Ok(after)
    ensures j in after.jobs && after.jobs[j] == db.jobs[j]
    ensures j in db.dossiers ==> j in after.dossiers && after.dossiers[j] == db.dossiers[j]
  {
  }

  lemma StepStays(h: string -> string, db: DB, s: Step, j: JobId)
    requires Bystanding(s, j)
    ensures Stays(db, Exec(h, db, s), j)
  {
    var r := Try(h, db, s);
    if r.Ok? && j in db.jobs { WriteStays(h, db, r.value, s, j); }
  }

  lemma WriteStays(h: string -> string, db: DB, after: DB, s: Step, j: JobId)
    requires Bystanding(s, j) && j in db.jobs && Try(h, db, s) == Ok(after)
    ensures Stays(db, after, j)
  {
    if Apply.OrdinaryWrite(s) {
      Apply.OrdinaryResult(h, db, s, j, after);
      if !db.jobs[j].phase.Ordinary? {
        OrdinaryRow(h, db, after, s, j);
        if j in db.dossiers { OrdinaryDossier(h, db, after, s, j); }
      }
    } else {
      OthersJournal(h, db, after, s, j);
    }
  }

  lemma StaysTransitive(x: DB, y: DB, z: DB, j: JobId)
    requires Stays(x, y, j) && Stays(y, z, j)
    ensures Stays(x, z, j)
  {
  }

  lemma {:induction false} RunStays(h: string -> string, db: DB, steps: seq<Step>, j: JobId)
    requires forall s <- steps :: Bystanding(s, j)
    ensures Stays(db, Run(h, db, steps), j)
    decreases |steps|
  {
    if steps != [] {
      var next := Exec(h, db, steps[0]);
      StepStays(h, db, steps[0], j);
      RunStays(h, next, steps[1..], j);
      StaysTransitive(db, next, Run(h, db, steps), j);
    }
  }

  /** Whatever happens meanwhile, the runner finds its job where it left it. */
  lemma ElapsedStays(h: string -> string, x: DB, y: DB, j: JobId)
    requires Elapsed(h, x, y, j)
    ensures Stays(x, y, j)
    ensures Inv(h, x) ==> Inv(h, y)
  {
    var steps: seq<Step> :| (forall s <- steps :: Bystanding(s, j)) && Run(h, x, steps) == y;
    RunStays(h, x, steps, j);
    if Inv(h, x) { RunKeeps(h, x, steps); }
  }

  lemma {:induction false} RunSnoc(h: string -> string, db: DB, steps: seq<Step>, s: Step)
    ensures Run(h, db, steps + [s]) == Exec(h, Run(h, db, steps), s)
    decreases |steps|
  {
    if steps == [] {
      assert [] + [s] == [s] && [s][1..] == [];
      assert Run(h, Exec(h, db, s), []) == Exec(h, db, s);
    } else {
      assert (steps + [s])[1..] == steps[1..] + [s];
      RunSnoc(h, Exec(h, db, steps[0]), steps[1..], s);
    }
  }

  /** An await: any run of such writes, through the methods of the store. */
  method Await(db: Database, j: JobId)
    modifies db
    ensures Elapsed(db.sha256, old(db.View()), db.View(), j)
  {
    var steps: seq<Step> := *;
    ghost var start := db.View();
    ghost var made: seq<Step> := [];
    for i := 0 to |steps|
      invariant (forall s <- made :: Bystanding(s, j)) && Run(db.sha256, start, made) == db.View()
    {
      if Bystanding(steps[i], j) {
        RunSnoc(db.sha256, start, made, steps[i]);
        var _ := Perform(db, steps[i]);
        made := made + [steps[i]];
      }
    }
  }
}
