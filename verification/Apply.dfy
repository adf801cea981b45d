/** The whole system around source application: the durable store, the source repository, the user,
    the runners of the accepted jobs, crashes and restarts, step by step. */
module Apply {
  import opened Model
  import opened Store
  import opened Invariant
  import opened Runs
  import Journal
  import opened G = Git

  const DOSSIER_SCHEMA_VERSION := 1

  /** Where run_job stands. The records it captured live in memory only. */
  datatype Runner =
    | Working                                  // planning, tasks, final review: ordinary writes
    | Resuming(rec: Job)                       // _resume_accepted_job, record just read
    | Reconciling(rec: Job, d: Dossier, pc: Pc)
    | Publishing(rec: Job, d: Dossier, outcome: Outcome, reason: string)
    | Ended

  /** since is a history variable: the commits the source HEAD has been at during the last
      reconciliation of a job, from its entry to its end. */
  datatype Sys = Sys(db: DB, git: Repo, since: map<JobId, set<Model.Commit>>, runners: map<JobId, Runner>)

  datatype Label =
    | User(git': Repo)                // the user moves, commits, edits, switches; history only grows
    | Write(step: Step)               // any ordinary write, by any runner or by the daemon
    | Spawn(j: JobId)                 // the daemon starts a runner
    | Accept(j: JobId, acc: Acceptance)
    | Advance(j: JobId, fault: Fault) // one durable write or one Git command of an accepted runner
    | Crash                           // all memory is lost

  ghost predicate OrdinaryWrite(s: Step) {
    !s.SPrepare? && !s.SMarkApply? && !s.SPublish?
  }

  function PlanOf(rec: Job): Plan {
    Plan(rec.integrationBranch, rec.baseBranch, rec.baseCommit, rec.acceptedCommit)
  }

  ghost function SetRunner(s: Sys, j: JobId, r: Runner): Sys {
    s.(runners := s.runners[j := r])
  }

  function HeadOf(g: Repo): set<Model.Commit> {
    if g.Head().Some? then {g.Head().value} else {}
  }

  /** A reconciliation of the job is under way. */
  ghost predicate Watching(s: Sys, j: JobId) {
    j in s.runners && s.runners[j].Reconciling?
  }

  ghost function SinceOf(s: Sys, j: JobId): set<Model.Commit> {
    if j in s.since then s.since[j] else {}
  }

  /** The repository changes under every reconciliation that is under way. */
  ghost function SeeHead(s: Sys, g: Repo): Sys {
    s.(git := g,
       since := map j | j in s.since :: if Watching(s, j) then s.since[j] + HeadOf(g) else s.since[j])
  }

  /** A reconciliation begins: its history starts with the HEAD of this moment. */
  ghost function Begin(s: Sys, j: JobId, rec: Job, d: Dossier): Sys {
    SetRunner(s.(since := s.since[j := HeadOf(s.git)]), j, Reconciling(rec, d, Resolve))
  }

  /** The entry of _resume_accepted_job up to and including mark_apply_started. */
  ghost function Enter(h: string -> string, s: Sys, j: JobId, rec: Job): Sys {
    if !InAcceptance(rec) || rec.acceptedCommit == "" || j !in s.db.dossiers || s.db.dossiers[j].published
       || s.db.dossiers[j].schemaVersion != DOSSIER_SCHEMA_VERSION
       || h(s.db.dossiers[j].content) != s.db.dossiers[j].sha
    then SetRunner(s, j, Ended)
    else
      var d := s.db.dossiers[j];
      if rec.intent.NotRequested? then SetRunner(s, j, Publishing(rec, d, NotApplied, ""))
      else if rec.phase.Applying? then Begin(s, j, rec, d)
      else
        var r := MarkApplyStarted(s.db, j, rec.acceptedCommit);
        if r.Err? || j !in r.value.jobs then SetRunner(s, j, Ended)
        else Begin(s.(db := r.value), j, r.value.jobs[j], d)
  }

  ghost function GitStep(s: Sys, j: JobId, rec: Job, d: Dossier, pc: Pc, fault: Fault): Sys {
    var (g', pc') := Command(s.git, PlanOf(rec), pc, fault);
    var r := if pc'.Done? then Publishing(rec, d, pc'.outcome, pc'.reason)
             else if pc'.Raised? then Ended
             else Reconciling(rec, d, pc');
    SetRunner(SeeHead(s, g'), j, r)
  }

  ghost function PublishStep(h: string -> string, s: Sys, j: JobId, rec: Job, d: Dossier, o: Outcome, reason: string): Sys {
    var p := Publication(d.schemaVersion, d.sha, rec.finalSummary, o, reason);
    SetRunner(s.(db := Exec(h, s.db, SPublish(j, p))), j, Ended)
  }

  ghost function AdvanceStep(h: string -> string, s: Sys, j: JobId, fault: Fault): Sys
    requires j in s.runners
  {
    match s.runners[j]
    case Resuming(rec) => Enter(h, s, j, rec)
    case Reconciling(rec, d, pc) => GitStep(s, j, rec, d, pc, fault)
    case Publishing(rec, d, o, reason) => PublishStep(h, s, j, rec, d, o, reason)
    case _ => s
  }

  ghost function IntentOf(job: Job): Intent {
    if job.autoApply then Requested else NotRequested
  }

  /** A label that is not enabled changes nothing. */
  ghost function Next(h: string -> string, s: Sys, l: Label): Sys {
    match l
    case User(g) => if Extends(s.git, g) then SeeHead(s, g) else s
    case Write(step) => if OrdinaryWrite(step) then s.(db := Exec(h, s.db, step)) else s
    case Spawn(j) =>
      if j in s.db.jobs && (j !in s.runners || s.runners[j].Ended?)
      then SetRunner(s, j, if InAcceptance(s.db.jobs[j]) then Resuming(s.db.jobs[j]) else Working) else s
    case Accept(j, acc) =>
      if j in s.db.jobs && j in s.runners && s.runners[j].Working? && s.db.jobs[j].phase.Ordinary?
         && acc.intent == Some(IntentOf(s.db.jobs[j])) then
        var r := PrepareAccepted(h, s.db, j, acc);
        if r.Err? || j !in r.value.jobs then SetRunner(s, j, Ended)
        else SetRunner(s.(db := r.value), j, Resuming(r.value.jobs[j]))
      else s
    case Advance(j, fault) => if j in s.runners then AdvanceStep(h, s, j, fault) else s
    case Crash => s.(runners := map[])
  }

  ghost function RunSys(h: string -> string, s: Sys, ls: seq<Label>): Sys
    decreases |ls|
  {
    if ls == [] then s else RunSys(h, Next(h, s, ls[0]), ls[1..])
  }

  // ---- invariant -----------------------------------------------------------------------

  /** The captured record still says what the row says, apart from the stop flag, state and error. */
  ghost predicate Synced(row: Job, rec: Job) {
    && InAcceptance(rec) && row.phase == rec.phase && row.acceptedCommit == rec.acceptedCommit
    && row.intent == rec.intent && row.finalSummary == rec.finalSummary
    && row.integrationBranch == rec.integrationBranch && row.baseBranch == rec.baseBranch
    && row.baseCommit == rec.baseCommit
  }

  /** The commit was an ancestor of a HEAD the source had during the job's last reconciliation. */
  ghost predicate Witnessed(s: Sys, j: JobId, c: Model.Commit) {
    exists x <- SinceOf(s, j) :: Ancestor(s.git.parents, c, x)
  }

  ghost predicate PcOk(s: Sys, j: JobId, pc: Pc) {
    && j in s.since && HeadOf(s.git) <= SinceOf(s, j)
    && (pc.Contains? ==> pc.head in SinceOf(s, j))
    && !pc.Done? && !pc.Raised?
  }

  ghost predicate RunnerOk(s: Sys, j: JobId, r: Runner) {
    match r
    case Working => true
    case Ended => true
    case Resuming(rec) => j in s.db.jobs && Synced(s.db.jobs[j], rec)
    case Reconciling(rec, d, pc) =>
      && j in s.db.jobs && Synced(s.db.jobs[j], rec)
      && j in s.db.dossiers && s.db.dossiers[j] == d && !d.published
      && rec.phase.Applying? && PcOk(s, j, pc)
    case Publishing(rec, d, o, reason) =>
      && j in s.db.jobs && Synced(s.db.jobs[j], rec)
      && j in s.db.dossiers && s.db.dossiers[j] == d && !d.published
      && (rec.intent.Requested? ==> rec.phase.Applying?)
      && (o.Applied? ==> rec.phase.Applying? && Witnessed(s, j, rec.acceptedCommit))
  }

  ghost predicate SysInv(h: string -> string, s: Sys) {
    && Inv(h, s.db)
    && (forall j {:trigger RunnerOk(s, j, s.runners[j])} | j in s.runners :: RunnerOk(s, j, s.runners[j]))
    && (forall j <- s.db.jobs :: s.db.jobs[j].outcome.Applied? ==> Witnessed(s, j, s.db.jobs[j].acceptedCommit))
  }

  // ---- ordinary writes -----------------------------------------------------------------

  lemma OrdinaryKeepsPhase(h: string -> string, db: DB, s: Step, j: JobId)
    requires Inv(h, db) && OrdinaryWrite(s) && j in db.jobs
    ensures j in Exec(h, db, s).jobs
    ensures Exec(h, db, s).jobs[j].phase == db.jobs[j].phase
    ensures Exec(h, db, s).jobs[j].outcome == db.jobs[j].outcome
  {
    var r := Try(h, db, s);
    if r.Ok? { OrdinaryResult(h, db, s, j, r.value); }
  }

  lemma OrdinaryResult(h: string -> string, db: DB, s: Step, j: JobId, after: DB)
    requires OrdinaryWrite(s) && j in db.jobs && Try(h, db, s) == Ok(after)
    ensures j in after.jobs && after.jobs[j].phase == db.jobs[j].phase && after.jobs[j].outcome == db.jobs[j].outcome
  {
    if s.SAddTasks? { InsertKeepsJobs(db, s.j, MaxSeq(db, s.j), s.ids, s.plan, 0); }
  }

  lemma {:induction false} InsertKeepsJobs(db: DB, j: JobId, start: nat, ids: seq<TaskId>, plan: seq<PlannedTask>, k: nat)
    requires |ids| == |plan| && k <= |plan| && InsertTasks(db, j, start, ids, plan, k).Ok?
    ensures InsertTasks(db, j, start, ids, plan, k).value.jobs == db.jobs
    decreases |plan| - k
  {
    if k < |plan| {
      InsertKeepsJobs(db.(tasks := db.tasks[ids[k] := NewTask(j, start + k + 1, plan[k])]), j, start, ids, plan, k + 1);
    }
  }

  lemma NewJobsAreOrdinary(h: string -> string, db: DB, s: Step, j: JobId)
    requires Inv(h, db) && OrdinaryWrite(s) && j in Exec(h, db, s).jobs && j !in db.jobs
    ensures Exec(h, db, s).jobs[j].outcome.Unset?
  {
    if s.SAddTasks? && Try(h, db, s).Ok? {
      InsertKeepsJobs(db, s.j, MaxSeq(db, s.j), s.ids, s.plan, 0);
    }
  }

  /** An ordinary write leaves an accepted job's record and dossier as a runner captured them. */
  lemma OrdinaryKeepsAcceptance(h: string -> string, db: DB, s: Step, j: JobId, rec: Job)
    requires Inv(h, db) && OrdinaryWrite(s) && j in db.jobs && Synced(db.jobs[j], rec)
    ensures var db' := Exec(h, db, s);
      && j in db'.jobs && Synced(db'.jobs[j], rec)
      && j in db.dossiers && j in db'.dossiers && db'.dossiers[j] == db.dossiers[j]
  {
    var db' := Exec(h, db, s);
    OrdinaryKeepsPhase(h, db, s, j);
    ExecKeeps(h, db, s);
    assert SliceAdvances(SliceOf(db, j), SliceOf(db', j));
    assert SliceOk(h, SliceOf(db, j)) && SliceOk(h, SliceOf(db', j));
  }

  lemma WriteKeeps(h: string -> string, s: Sys, step: Step)
    requires SysInv(h, s) && OrdinaryWrite(step)
    ensures SysInv(h, Next(h, s, Write(step)))
  {
    var s' := Next(h, s, Write(step));
    ExecKeeps(h, s.db, step);
    forall j | j in s'.runners ensures RunnerOk(s', j, s'.runners[j]) {
      assert RunnerOk(s, j, s.runners[j]);
      match s.runners[j]
      case Resuming(rec) => OrdinaryKeepsAcceptance(h, s.db, step, j, rec);
      case Reconciling(rec, d, pc) => OrdinaryKeepsAcceptance(h, s.db, step, j, rec);
      case Publishing(rec, d, o, reason) => OrdinaryKeepsAcceptance(h, s.db, step, j, rec);
      case _ =>
    }
    forall j | j in s'.db.jobs && s'.db.jobs[j].outcome.Applied? ensures Witnessed(s', j, s'.db.jobs[j].acceptedCommit) {
      if j in s.db.jobs {
        OrdinaryKeepsPhase(h, s.db, step, j);
        assert SliceAdvances(SliceOf(s.db, j), SliceOf(s'.db, j));
        assert SliceOk(h, SliceOf(s.db, j));
      } else {
        NewJobsAreOrdinary(h, s.db, step, j);
      }
    }
  }

  // ---- the other steps -----------------------------------------------------------------

  /** History and repository only grow, as far as job j's reconciliation is concerned. */
  ghost predicate Follows(s: Sys, s': Sys, j: JobId) {
    && Extends(s.git, s'.git) && SinceOf(s, j) <= SinceOf(s', j)
    && (Watching(s, j) ==> j in s'.since && HeadOf(s'.git) <= SinceOf(s', j))
  }

  lemma WitnessStays(s: Sys, s': Sys, j: JobId, c: Model.Commit)
    requires Follows(s, s', j) && Witnessed(s, j, c)
    ensures Witnessed(s', j, c)
  {
    var x :| x in SinceOf(s, j) && Ancestor(s.git.parents, c, x);
    AncestorStable(s.git, s'.git, c, x);
  }

  /** A step that changes no row a given runner relies on keeps that runner consistent. */
  lemma RunnerStable(s: Sys, s': Sys, j: JobId)
    requires j in s.runners && Follows(s, s', j) && RunnerOk(s, j, s.runners[j])
    requires j in s.db.jobs ==> j in s'.db.jobs && s'.db.jobs[j] == s.db.jobs[j]
    requires j in s.db.dossiers ==> j in s'.db.dossiers && s'.db.dossiers[j] == s.db.dossiers[j]
    ensures RunnerOk(s', j, s.runners[j])
  {
    var r := s.runners[j];
    if r.Publishing? && r.outcome.Applied? { WitnessStays(s, s', j, r.rec.acceptedCommit); }
  }

  /** With repository and history unchanged, nothing is lost. */
  lemma FollowsSame(h: string -> string, s: Sys, s': Sys, j: JobId)
    requires SysInv(h, s) && s'.git == s.git && SinceOf(s', j) == SinceOf(s, j) && (j in s.since ==> j in s'.since)
    ensures Follows(s, s', j)
  {
    if Watching(s, j) { assert RunnerOk(s, j, s.runners[j]); }
  }

  lemma FollowsSeen(h: string -> string, s: Sys, g: Repo, j: JobId)
    requires SysInv(h, s) && Extends(s.git, g)
    ensures Follows(s, SeeHead(s, g), j)
  {
    if Watching(s, j) { assert RunnerOk(s, j, s.runners[j]); }
  }

  ghost predicate OnlyJob(db: DB, db': DB, j: JobId) {
    && db'.jobs.Keys == db.jobs.Keys
    && (forall i <- db.jobs :: i != j ==> db'.jobs[i] == db.jobs[i])
    && (forall i <- db.dossiers :: i != j ==> i in db'.dossiers && db'.dossiers[i] == db.dossiers[i])
  }

  lemma PrepareFrame(h: string -> string, db: DB, j: JobId, acc: Acceptance)
    requires PrepareAccepted(h, db, j, acc).Ok? && db.jobs[j].phase.Ordinary?
    ensures OnlyJob(db, PrepareAccepted(h, db, j, acc).value, j)
    ensures PrepareAccepted(h, db, j, acc).value.jobs[j] == AcceptedRow(db.jobs[j], acc)
    ensures j in PrepareAccepted(h, db, j, acc).value.dossiers
    ensures PrepareAccepted(h, db, j, acc).value.dossiers[j].schemaVersion == acc.schemaVersion
  {
  }

  lemma MarkFrame(db: DB, j: JobId, c: Model.Commit)
    requires MarkApplyStarted(db, j, c).Ok?
    ensures OnlyJob(db, MarkApplyStarted(db, j, c).value, j)
    ensures MarkApplyStarted(db, j, c).value.jobs[j] == db.jobs[j].(phase := Applying)
    ensures MarkApplyStarted(db, j, c).value.dossiers == db.dossiers
  {
  }

  lemma PublishFrame(h: string -> string, db: DB, j: JobId, p: Publication)
    requires j in db.jobs
    ensures var db' := Exec(h, db, SPublish(j, p));
      OnlyJob(db, db', j) && (db'.jobs[j] == db.jobs[j] || db'.jobs[j] == PublishedRow(db.jobs[j], p))
  {
  }

  /** What is left to show for a step of job j, once its own runner and outcome are known to be fine. */
  lemma StepOfOne(h: string -> string, s: Sys, s': Sys, j: JobId)
    requires SysInv(h, s) && Inv(h, s'.db) && OnlyJob(s.db, s'.db, j)
    requires forall i {:trigger Follows(s, s', i)} :: i != j ==> Follows(s, s', i)
    requires forall i <- s'.runners :: i != j ==> i in s.runners && s'.runners[i] == s.runners[i]
    requires j in s'.runners ==> RunnerOk(s', j, s'.runners[j])
    requires j in s'.db.jobs && s'.db.jobs[j].outcome.Applied? ==> Witnessed(s', j, s'.db.jobs[j].acceptedCommit)
    ensures SysInv(h, s')
  {
    forall i | i in s'.runners ensures RunnerOk(s', i, s'.runners[i]) {
      if i != j {
        assert Follows(s, s', i) && RunnerOk(s, i, s.runners[i]);
        RunnerStable(s, s', i);
      }
    }
    forall i | i in s'.db.jobs && s'.db.jobs[i].outcome.Applied?
      ensures Witnessed(s', i, s'.db.jobs[i].acceptedCommit)
    {
      if i != j {
        assert Follows(s, s', i);
        WitnessStays(s, s', i, s.db.jobs[i].acceptedCommit);
      }
    }
  }

  lemma UserKeeps(h: string -> string, s: Sys, g: Repo)
    requires SysInv(h, s)
    ensures SysInv(h, Next(h, s, User(g)))
  {
    if Extends(s.git, g) {
      var s' := SeeHead(s, g);
      forall i | i in s'.runners ensures RunnerOk(s', i, s'.runners[i]) {
        assert RunnerOk(s, i, s.runners[i]);
        FollowsSeen(h, s, g, i);
        RunnerStable(s, s', i);
      }
      forall i | i in s'.db.jobs && s'.db.jobs[i].outcome.Applied?
        ensures Witnessed(s', i, s'.db.jobs[i].acceptedCommit)
      {
        FollowsSeen(h, s, g, i);
        WitnessStays(s, s', i, s.db.jobs[i].acceptedCommit);
      }
    }
  }

  lemma SpawnKeeps(h: string -> string, s: Sys, j: JobId)
    requires SysInv(h, s)
    ensures SysInv(h, Next(h, s, Spawn(j)))
  {
    var s' := Next(h, s, Spawn(j));
    if s' != s { SetRunnerKeeps(h, s, j, s'.runners[j]); }
  }

  /** Only the runner of one job changes. */
  lemma SetRunnerKeeps(h: string -> string, s: Sys, j: JobId, r: Runner)
    requires SysInv(h, s) && RunnerOk(s, j, r)
    ensures SysInv(h, SetRunner(s, j, r))
  {
    var s' := SetRunner(s, j, r);
    forall i | i in s'.runners ensures RunnerOk(s', i, s'.runners[i]) {
      if i != j { assert RunnerOk(s, i, s.runners[i]); }
    }
  }

  /** A durable write of one job together with its runner. */
  lemma WrittenKeeps(h: string -> string, s: Sys, db': DB, j: JobId, r: Runner)
    requires SysInv(h, s) && Inv(h, db') && OnlyJob(s.db, db', j) && j in db'.jobs
    requires RunnerOk(s.(db := db'), j, r) && !db'.jobs[j].outcome.Applied?
    ensures SysInv(h, SetRunner(s.(db := db'), j, r))
  {
    var s' := SetRunner(s.(db := db'), j, r);
    forall i | i != j ensures Follows(s, s', i) { FollowsSame(h, s, s', i); }
    StepOfOne(h, s, s', j);
  }

  lemma AcceptKeeps(h: string -> string, s: Sys, j: JobId, acc: Acceptance)
    requires SysInv(h, s)
    ensures SysInv(h, Next(h, s, Accept(j, acc)))
  {
    var s' := Next(h, s, Accept(j, acc));
    if s' != s {
      var r := PrepareAccepted(h, s.db, j, acc);
      if r.Ok? {
        Journal.PrepareKeeps(h, s.db, j, acc);
        PrepareFrame(h, s.db, j, acc);
        WrittenKeeps(h, s, r.value, j, Resuming(r.value.jobs[j]));
      } else {
        SetRunnerKeeps(h, s, j, Ended);
      }
    }
  }

  lemma PendingUnset(h: string -> string, db: DB, j: JobId)
    requires Inv(h, db) && j in db.jobs && InAcceptance(db.jobs[j])
    ensures db.jobs[j].outcome.Unset? && (db.jobs[j].phase.Applying? ==> db.jobs[j].intent.Requested?)
  {
    assert SliceOk(h, SliceOf(db, j));
  }

  /** A reconciliation begins, with or without the write that starts it. */
  lemma BeginKeeps(h: string -> string, s: Sys, db': DB, j: JobId, rec: Job, d: Dossier)
    requires SysInv(h, s) && Inv(h, db') && OnlyJob(s.db, db', j) && j in db'.jobs && !db'.jobs[j].outcome.Applied?
    requires Synced(db'.jobs[j], rec) && rec.phase.Applying? && j in db'.dossiers && db'.dossiers[j] == d && !d.published
    ensures SysInv(h, Begin(s.(db := db'), j, rec, d))
  {
    var s' := Begin(s.(db := db'), j, rec, d);
    forall i | i != j ensures Follows(s, s', i) { FollowsSame(h, s, s', i); }
    StepOfOne(h, s, s', j);
  }

  lemma EnterKeeps(h: string -> string, s: Sys, j: JobId, rec: Job)
    requires SysInv(h, s) && RunnerOk(s, j, Resuming(rec))
    ensures SysInv(h, Enter(h, s, j, rec))
  {
    var s' := Enter(h, s, j, rec);
    PendingUnset(h, s.db, j);
    if !s'.runners[j].Reconciling? {
      SetRunnerKeeps(h, s, j, s'.runners[j]);
    } else if rec.phase.Applying? {
      assert s.(db := s.db) == s;
      BeginKeeps(h, s, s.db, j, rec, s.db.dossiers[j]);
    } else {
      MarkingKeeps(h, s, j, rec);
    }
  }

  lemma MarkingKeeps(h: string -> string, s: Sys, j: JobId, rec: Job)
    requires SysInv(h, s) && RunnerOk(s, j, Resuming(rec)) && rec.phase.Accepted?
    requires j in s.db.dossiers && !s.db.dossiers[j].published && !s.db.jobs[j].outcome.Applied?
    requires MarkApplyStarted(s.db, j, rec.acceptedCommit).Ok?
    ensures var db' := MarkApplyStarted(s.db, j, rec.acceptedCommit).value;
      j in db'.jobs && SysInv(h, Begin(s.(db := db'), j, db'.jobs[j], s.db.dossiers[j]))
  {
    var db' := MarkApplyStarted(s.db, j, rec.acceptedCommit).value;
    Journal.MarkApplyKeeps(h, s.db, j, rec.acceptedCommit);
    MarkFrame(s.db, j, rec.acceptedCommit);
    BeginKeeps(h, s, db', j, db'.jobs[j], s.db.dossiers[j]);
  }

  lemma CommandGrows(g: Repo, w: Plan, pc: Pc, fault: Fault)
    ensures Extends(g, Command(g, w, pc, fault).0)
    ensures Command(g, w, pc, fault).0 != g ==>
              pc.Merge? && FastForward(g, w.acceptedCommit) == Some(Command(g, w, pc, fault).0)
  {
  }

  /** 'applied' is decided by a HEAD of this very reconciliation: the one just read, the one read by the
      command before, or the one the merge was just seen to have made. */
  lemma DecidedHere(s: Sys, j: JobId, w: Plan, pc: Pc, fault: Fault)
    requires PcOk(s, j, pc)
    ensures var (g', pc') := Command(s.git, w, pc, fault);
      pc'.Done? && pc'.outcome.Applied? ==>
        g' == s.git && exists x <- SinceOf(s, j) :: Ancestor(s.git.parents, w.acceptedCommit, x)
  {
    var (g', pc') := Command(s.git, w, pc, fault);
    if pc'.Done? && pc'.outcome.Applied? {
      AncestorSelf(s.git.parents, w.acceptedCommit);
      assert pc.Contains? || s.git.Head() == Some(w.acceptedCommit);
    }
  }

  lemma GitStepKeeps(h: string -> string, s: Sys, j: JobId, rec: Job, d: Dossier, pc: Pc, fault: Fault)
    requires SysInv(h, s) && Watching(s, j) && s.runners[j] == Reconciling(rec, d, pc)
    ensures SysInv(h, GitStep(s, j, rec, d, pc, fault))
  {
    var s' := GitStep(s, j, rec, d, pc, fault);
    var (g', pc') := Command(s.git, PlanOf(rec), pc, fault);
    assert RunnerOk(s, j, s.runners[j]);
    CommandGrows(s.git, PlanOf(rec), pc, fault);
    forall i ensures Follows(s, s', i) { FollowsSeen(h, s, g', i); }
    DecidedHere(s, j, PlanOf(rec), pc, fault);
    PendingUnset(h, s.db, j);
    GitRunnerOk(s, j, rec, d, pc, fault);
    StepOfOne(h, s, s', j);
  }

  lemma GitRunnerOk(s: Sys, j: JobId, rec: Job, d: Dossier, pc: Pc, fault: Fault)
    requires Watching(s, j) && s.runners[j] == Reconciling(rec, d, pc) && RunnerOk(s, j, s.runners[j])
    requires Follows(s, GitStep(s, j, rec, d, pc, fault), j)
    requires var pc' := Command(s.git, PlanOf(rec), pc, fault).1;
      pc'.Done? && pc'.outcome.Applied? ==> Witnessed(s, j, rec.acceptedCommit)
    ensures RunnerOk(GitStep(s, j, rec, d, pc, fault), j, GitStep(s, j, rec, d, pc, fault).runners[j])
  {
    var s' := GitStep(s, j, rec, d, pc, fault);
    var pc' := Command(s.git, PlanOf(rec), pc, fault).1;
    if pc'.Done? && pc'.outcome.Applied? { WitnessStays(s, s', j, rec.acceptedCommit); }
  }

  lemma PublishStepKeeps(h: string -> string, s: Sys, j: JobId, rec: Job, d: Dossier, o: Outcome, reason: string)
    requires SysInv(h, s) && RunnerOk(s, j, Publishing(rec, d, o, reason))
    ensures SysInv(h, PublishStep(h, s, j, rec, d, o, reason))
  {
    var s' := PublishStep(h, s, j, rec, d, o, reason);
    var p := Publication(d.schemaVersion, d.sha, rec.finalSummary, o, reason);
    ExecKeeps(h, s.db, SPublish(j, p));
    PublishFrame(h, s.db, j, p);
    PendingUnset(h, s.db, j);
    forall i ensures Follows(s, s', i) { FollowsSame(h, s, s', i); }
    if o.Applied? { WitnessStays(s, s', j, rec.acceptedCommit); }
    StepOfOne(h, s, s', j);
  }

  lemma NextKeeps(h: string -> string, s: Sys, l: Label)
    requires SysInv(h, s)
    ensures SysInv(h, Next(h, s, l))
  {
    match l
    case User(g) => UserKeeps(h, s, g);
    case Write(step) => if OrdinaryWrite(step) { WriteKeeps(h, s, step); }
    case Spawn(j) => SpawnKeeps(h, s, j);
    case Accept(j, acc) => AcceptKeeps(h, s, j, acc);
    case Advance(j, fault) =>
      if j in s.runners {
        assert RunnerOk(s, j, s.runners[j]);
        match s.runners[j]
        case Resuming(rec) => EnterKeeps(h, s, j, rec);
        case Reconciling(rec, d, pc) => GitStepKeeps(h, s, j, rec, d, pc, fault);
        case Publishing(rec, d, o, reason) => PublishStepKeeps(h, s, j, rec, d, o, reason);
        case _ =>
      }
    case Crash =>
  }

  lemma {:induction false} RunSysKeeps(h: string -> string, s: Sys, ls: seq<Label>)
    requires SysInv(h, s)
    ensures SysInv(h, RunSys(h, s, ls))
    decreases |ls|
  {
    if ls != [] {
      NextKeeps(h, s, ls[0]);
      RunSysKeeps(h, Next(h, s, ls[0]), ls[1..]);
    }
  }

  /** An empty store beside any repository. */
  ghost function Start(g: Repo): Sys {
    Sys(EmptyDB, g, map[], map[])
  }

  // ---- source safety -------------------------------------------------------------------

  /** The control plane moves the source only for a job durably 'applying' whose application was
      requested, only to the commit journaled for it, and only forward; it moves nothing else. */
  ghost predicate SafeMove(s: Sys, s': Sys, j: JobId) {
    && j in s.db.jobs && s.db.jobs[j].phase.Applying? && s.db.jobs[j].intent.Requested?
    && s.db == s'.db
    && var c := s.db.jobs[j].acceptedCommit;
    && s.git.Head().Some? && s'.git == s.git.MoveHead(c)
    && Ancestor(s.git.parents, s.git.Head().value, c)
  }

  lemma SourceSafety(h: string -> string, s: Sys, l: Label)
    requires SysInv(h, s) && !l.User? && Next(h, s, l).git != s.git
    ensures l.Advance? && SafeMove(s, Next(h, s, l), l.j)
  {
    assert RunnerOk(s, l.j, s.runners[l.j]);
    var r := s.runners[l.j];
    CommandGrows(s.git, PlanOf(r.rec), r.pc, l.fault);
    assert SliceOk(h, SliceOf(s.db, l.j));
  }

  /** What the history of a job holds: the HEAD at the entry of its last reconciliation, every HEAD seen
      while that goes on, and nothing from before it or after its end. */
  ghost predicate OfTheCall(s: Sys, s': Sys, j: JobId) {
    && (Watching(s, j) ==> SinceOf(s', j) == SinceOf(s, j) + HeadOf(s'.git))
    && (!Watching(s, j) && Watching(s', j) ==> SinceOf(s', j) == HeadOf(s'.git))
    && (!Watching(s, j) && !Watching(s', j) ==> SinceOf(s', j) == SinceOf(s, j))
  }

  /** The HEAD is in the history of every reconciliation under way. */
  ghost predicate HeadsSeen(s: Sys) {
    forall j :: Watching(s, j) ==> j in s.since && HeadOf(s.git) <= SinceOf(s, j)
  }

  lemma InvSeesHeads(h: string -> string, s: Sys)
    requires SysInv(h, s)
    ensures HeadsSeen(s)
  {
    forall j | Watching(s, j) ensures j in s.since && HeadOf(s.git) <= SinceOf(s, j) {
      assert RunnerOk(s, j, s.runners[j]);
    }
  }

  lemma SeenOfTheCall(s: Sys, g: Repo, j: JobId)
    requires HeadsSeen(s)
    ensures OfTheCall(s, SeeHead(s, g), j)
  {
  }

  lemma EnterOfTheCall(h: string -> string, s: Sys, i: JobId, rec: Job, j: JobId)
    requires HeadsSeen(s) && i in s.runners && s.runners[i] == Resuming(rec)
    ensures OfTheCall(s, Enter(h, s, i, rec), j)
  {
  }

  lemma GitOfTheCall(s: Sys, i: JobId, rec: Job, d: Dossier, pc: Pc, fault: Fault, j: JobId)
    requires HeadsSeen(s) && i in s.runners && s.runners[i] == Reconciling(rec, d, pc)
    ensures OfTheCall(s, GitStep(s, i, rec, d, pc, fault), j)
  {
  }

  lemma QuietOfTheCall(s: Sys, s': Sys, j: JobId)
    requires HeadsSeen(s) && s'.git == s.git && s'.since == s.since
    requires Watching(s', j) ==> Watching(s, j)
    ensures OfTheCall(s, s', j)
  {
  }

  lemma HistoryIsOfTheCall(h: string -> string, s: Sys, l: Label, j: JobId)
    requires SysInv(h, s)
    ensures OfTheCall(s, Next(h, s, l), j)
  {
    InvSeesHeads(h, s);
    if l.User? && Extends(s.git, l.git') {
      SeenOfTheCall(s, l.git', j);
    } else if l.Advance? {
      AdvanceOfTheCall(h, s, l, j);
    } else {
      QuietOfTheCall(s, Next(h, s, l), j);
    }
  }

  lemma AdvanceOfTheCall(h: string -> string, s: Sys, l: Label, j: JobId)
    requires HeadsSeen(s) && l.Advance?
    ensures OfTheCall(s, Next(h, s, l), j)
  {
    if l.j in s.runners && s.runners[l.j].Resuming? {
      EnterOfTheCall(h, s, l.j, s.runners[l.j].rec, j);
    } else if l.j in s.runners && s.runners[l.j].Reconciling? {
      var r := s.runners[l.j];
      GitOfTheCall(s, l.j, r.rec, r.d, r.pc, l.fault, j);
    } else {
      QuietOfTheCall(s, Next(h, s, l), j);
    }
  }

  /** Along every run, whatever the user does between any two commands: each control-plane move of the
      source is safe, and a job published as 'applied' had its accepted commit in a HEAD the source was
      at during the reconciliation that was published. */
  lemma SourceSafetyOfRuns(h: string -> string, g: Repo, ls: seq<Label>, l: Label)
    ensures var s := RunSys(h, Start(g), ls);
      && (!l.User? && Next(h, s, l).git != s.git ==> l.Advance? && SafeMove(s, Next(h, s, l), l.j))
      && (forall j <- s.db.jobs :: s.db.jobs[j].phase.Published? && s.db.jobs[j].outcome.Applied? ==>
            exists x <- SinceOf(s, j) :: Ancestor(s.git.parents, s.db.jobs[j].acceptedCommit, x))
  {
    EmptyOk(h);
    assert SysInv(h, Start(g));
    RunSysKeeps(h, Start(g), ls);
    var s := RunSys(h, Start(g), ls);
    if !l.User? && Next(h, s, l).git != s.git { SourceSafety(h, s, l); }
    forall j | j in s.db.jobs && s.db.jobs[j].outcome.Applied?
      ensures exists x <- SinceOf(s, j) :: Ancestor(s.git.parents, s.db.jobs[j].acceptedCommit, x)
    {
      assert Witnessed(s, j, s.db.jobs[j].acceptedCommit);
    }
  }
}
