/** Runs of the store: any sequence of writes, accepted or rejected, from any state. */
module Runs {
  import opened Store
  import opened Invariant
  import opened Preservation
  import opened Journal
  import opened Recovery

  lemma TryKeeps(h: string -> string, db: DB, s: Step)
    requires Inv(h, db) && Try(h, db, s).Ok?
    ensures Inv(h, Try(h, db, s).value) && Advances(db, Try(h, db, s).value)
  {
    match s
    case SCreateJob(id, repo, goal, bb, bc, ib, auto, payload) =>
      CreateJobKeeps(h, db, id, repo, goal, bb, bc, ib, auto, payload);
    case SAddTasks(j, ids, plan) => AddTasksKeeps(h, db, j, ids, plan);
    case SEvent(j, t, name, payload) => LogEventKeeps(h, db, j, t, name, payload);
    case SUpdateJob(j, p) => UpdateJobKeeps(h, db, j, p);
    case SUpdateTask(t, p) => UpdateTaskKeeps(h, db, t, p);
    case SStartAttempt(a, j, t, n, agent, w, b, l) => StartAttemptKeeps(h, db, a, j, t, n, agent, w, b, l);
    case SFinishAttempt(a, target, rc, summary) => FinishAttemptKeeps(h, db, a, target, rc, summary);
    case SStageDossier(j, v, sha, content) => StageDossierKeeps(h, db, j, v, sha, content);
    case SPrepare(j, acc) => PrepareKeeps(h, db, j, acc);
    case SMarkApply(j, commit) => MarkApplyKeeps(h, db, j, commit);
    case SPublish(j, p) => PublishKeeps(h, db, j, p);
    case SRetry(j) => RetryKeeps(h, db, j);
    case SSettle(j, ts, ats, summary) => SettleKeeps(h, db, j, ts, ats, summary);
    case SResume(j) => ResumeKeeps(h, db, j);
    case SRecover => RecoverNeverRaises(h, db); RecoverKeeps(h, db);
  }

  lemma ExecKeeps(h: string -> string, db: DB, s: Step)
    requires Inv(h, db)
    ensures Inv(h, Exec(h, db, s)) && Advances(db, Exec(h, db, s))
  {
    if Try(h, db, s).Ok? { TryKeeps(h, db, s); } else { AdvancesReflexive(db); }
  }

  /** The strengthened invariant holds along every run, and every run only advances the store:
      completed tasks stay completed, finished attempts are never rewritten, the ledger grows,
      and acceptance is one-way. */
  lemma {:induction false} RunKeeps(h: string -> string, db: DB, steps: seq<Step>)
    requires Inv(h, db)
    ensures Inv(h, Run(h, db, steps)) && Advances(db, Run(h, db, steps))
    decreases |steps|
  {
    if steps == [] {
      AdvancesReflexive(db);
    } else {
      var db1 := Exec(h, db, steps[0]);
      ExecKeeps(h, db, steps[0]);
      RunKeeps(h, db1, steps[1..]);
      AdvancesTransitive(db, db1, Run(h, db, steps));
    }
  }

  lemma EmptyOk(h: string -> string)
    ensures Inv(h, EmptyDB)
  {
  }

  ghost predicate Reachable(h: string -> string, db: DB) {
    exists steps: seq<Step> :: Run(h, EmptyDB, steps) == db
  }

  lemma ReachableInv(h: string -> string, db: DB)
    requires Reachable(h, db)
    ensures Inv(h, db)
  {
    var steps: seq<Step> :| Run(h, EmptyDB, steps) == db;
    EmptyOk(h);
    RunKeeps(h, EmptyDB, steps);
  }
}
