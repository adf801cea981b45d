/** Any write of the store through its methods, as other tasks and users make them meanwhile. */
module Interleaving {
  import opened Model
  import opened Store
  import opened DatabaseClass

  method Perform(db: Database, s: Step) returns (r: Result<()>)
    modifies db
    ensures db.View() == Exec(db.sha256, old(db.View()), s)
    ensures r.Ok? <==> Try(db.sha256, old(db.View()), s).Ok?
  {
    match s {
      case SCreateJob(id, repo, goal, bb, bc, ib, auto, payload) =>
        r := db.CreateJob(id, repo, goal, bb, bc, ib, auto, payload);
      case SAddTasks(j, ids, plan) =>
        if |ids| == |plan| { r := db.AddTasks(j, ids, plan); } else { r := Err(ValueError); }
      case SEvent(j, t, name, payload) => r := db.LogEvent(j, t, name, payload);
      case SUpdateJob(j, p) => r := db.UpdateJob(j, p);
      case SUpdateTask(t, p) => r := db.UpdateTask(t, p);
      case SStartAttempt(a, j, t, number, agent, worktree, branch, logPath) =>
        r := db.StartAttempt(a, j, t, number, agent, worktree, branch, logPath);
      case SFinishAttempt(a, target, rc, summary) => r := db.FinishAttempt(a, target, rc, summary);
      case SRetry(j) => r := db.RetryFailedTasks(j);
      case SSettle(j, ts, ats, summary) => r := db.SettleInflight(j, ts, ats, summary);
      case SResume(j) => r := db.ResumeTransaction(j);
      case SRecover => r := db.RecoverTransaction();
      case _ => r := PerformJournal(db, s);
    }
  }

  method PerformJournal(db: Database, s: Step) returns (r: Result<()>)
    requires s.SStageDossier? || s.SPrepare? || s.SMarkApply? || s.SPublish?
    modifies db
    ensures db.View() == Exec(db.sha256, old(db.View()), s)
    ensures r.Ok? <==> Try(db.sha256, old(db.View()), s).Ok?
  {
    match s {
      case SStageDossier(j, v, sha, content) => r := db.StageDossier(j, v, sha, content);
      case SPrepare(j, acc) => r := db.PrepareAcceptedJob(j, acc);
      case SMarkApply(j, commit) => r := db.MarkApplyStarted(j, commit);
      case SPublish(j, p) => r := db.PublishCompletedJob(j, p);
    }
  }
}
