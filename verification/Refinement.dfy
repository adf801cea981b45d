/** Crashes refine to nothing: while nobody else moves the source checkout or the accepted ref, and Git
    commands succeed, any number of crashes and restarts ends with the source, the outcome and the job of
    an undisturbed run. */
module Refinement {
  import opened Model
  import opened Store
  import opened Invariant
  import opened Runs
  import opened G = Git
  import opened Apply
  import Acceptance

  /** What may happen meanwhile: the steps of job j's own runner with every Git command succeeding, and
      anything else that leaves checkout and accepted ref alone: commits, branches and worktrees of other
      jobs, their acceptance and their runners' steps, ordinary writes (stop requests, recovery and events
      among them), crashes and new runners. */
  ghost predicate Allowed(h: string -> string, s: Sys, l: Label, j: JobId, w: Plan) {
    if l.Advance? && l.j == j then l.fault.NoFault? else Aside(s.git, Next(h, s, l).git, w)
  }

  ghost predicate AllAllowed(h: string -> string, s: Sys, ls: seq<Label>, j: JobId, w: Plan)
    decreases |ls|
  {
    ls == [] || (Allowed(h, s, ls[0], j, w) && AllAllowed(h, Next(h, s, ls[0]), ls[1..], j, w))
  }

  /** Where the source and the outcome are bound to end. */
  ghost function Target(g: Repo, row: Job): (Repo, Outcome) {
    if row.intent.NotRequested? then (g, NotApplied)
    else
      var (g', pc) := Reconcile(g, PlanOf(row));
      (g', if pc.Done? then pc.outcome else Unset)
  }

  /** Equal but for the columns a stop request, recovery or publication writes. */
  ghost predicate SameCore(row: Job, r0: Job) {
    row.(state := r0.state, stopRequested := r0.stopRequested, error := r0.error, phase := r0.phase,
         outcome := r0.outcome, reason := r0.reason) == r0
  }

  /** The rest of the call from here ends with this outcome, and with this source as far as it concerns
      the job. */
  ghost predicate Reaches(g0: Repo, w: Plan, pc: Pc, g: Repo, o: Outcome) {
    Rest(g0, w, pc).1.Done? && Rest(g0, w, pc).1.outcome == o && Aside(g, Rest(g0, w, pc).0, w)
  }

  ghost predicate OnCourse(s: Sys, r: Runner, w: Plan, g: Repo, o: Outcome) {
    match r
    case Reconciling(rec, d, pc) => Reaches(s.git, w, pc, g, o) && Known(s.git, w, pc)
    case Publishing(rec, d, o', reason) => o' == o && Aside(g, s.git, w)
    case _ => true
  }

  /** An undisturbed call from here would end there. */
  ghost predicate Heads(g0: Repo, row: Job, w: Plan, g: Repo, o: Outcome) {
    if row.intent.NotRequested? then o.NotApplied? && Aside(g, g0, w)
    else Reaches(g0, w, Resolve, g, o) && Known(g0, w, Resolve)
  }

  /** The job is still pending and bound for (g, o), or published exactly there. */
  ghost predicate Course(s: Sys, j: JobId, r0: Job, g: Repo, o: Outcome) {
    && !o.Unset?
    && j in s.db.jobs && SameCore(s.db.jobs[j], r0)
    && j in s.db.dossiers && s.db.dossiers[j].schemaVersion == DOSSIER_SCHEMA_VERSION
    && (if InAcceptance(s.db.jobs[j])
        then Heads(s.git, r0, PlanOf(r0), g, o) && (j in s.runners ==> OnCourse(s, s.runners[j], PlanOf(r0), g, o))
        else s.db.jobs[j].phase.Published? && s.db.jobs[j].outcome == o && s.db.jobs[j].error == ""
             && Aside(g, s.git, PlanOf(r0)))
  }

  ghost predicate Bound(h: string -> string, s: Sys, j: JobId, r0: Job, g: Repo, o: Outcome) {
    SysInv(h, s) && Course(s, j, r0, g, o)
  }

  // ---- ordinary writes -----------------------------------------------------------------

  lemma WriteKeepsCore(h: string -> string, db: DB, step: Step, j: JobId, r0: Job)
    requires Inv(h, db) && OrdinaryWrite(step) && j in db.jobs && j in db.dossiers
    requires !db.jobs[j].phase.Ordinary? && SameCore(db.jobs[j], r0)
    ensures var db' := Exec(h, db, step);
      && j in db'.jobs && SameCore(db'.jobs[j], r0) && j in db'.dossiers
      && db'.dossiers[j].schemaVersion == db.dossiers[j].schemaVersion
      && db'.jobs[j].phase == db.jobs[j].phase && db'.jobs[j].outcome == db.jobs[j].outcome
      && (db.jobs[j].phase.Published? ==> db'.jobs[j] == db.jobs[j])
  {
    OrdinaryKeepsPhase(h, db, step, j);
    ExecKeeps(h, db, step);
    assert SliceAdvances(SliceOf(db, j), SliceOf(Exec(h, db, step), j));
  }

  lemma CorePlan(x: Job, r0: Job)
    requires SameCore(x, r0)
    ensures PlanOf(x) == PlanOf(r0) && x.intent == r0.intent
  {
  }

  lemma WriteStaysBound(h: string -> string, s: Sys, step: Step, j: JobId, r0: Job, g: Repo, o: Outcome)
    requires Bound(h, s, j, r0, g, o) && OrdinaryWrite(step)
    ensures Course(Next(h, s, Write(step)), j, r0, g, o)
  {
    WriteKeepsCore(h, s.db, step, j, r0);
  }

  // ---- the runner's own steps ----------------------------------------------------------

  /** On a consistent system the entry of _resume_accepted_job passes all its checks. */
  lemma EnterProceeds(h: string -> string, s: Sys, j: JobId, rec: Job)
    requires SysInv(h, s) && RunnerOk(s, j, Resuming(rec))
    requires j in s.db.dossiers && s.db.dossiers[j].schemaVersion == DOSSIER_SCHEMA_VERSION
    ensures var s' := Enter(h, s, j, rec);
      && j in s'.db.jobs && j in s'.runners && s'.git == s.git && s'.db.dossiers == s.db.dossiers
      && s'.db.jobs[j] == s.db.jobs[j].(phase := s'.db.jobs[j].phase) && InAcceptance(s'.db.jobs[j])
      && var r := s'.runners[j];
      && (r.Publishing? && rec.intent.NotRequested? ==> r.outcome.NotApplied?)
      && (if rec.intent.NotRequested? then r.Publishing?
          else r.Reconciling? && r.pc.Resolve? && PlanOf(r.rec) == PlanOf(rec))
  {
    assert JournalOk(h, s.db.jobs[j], DossierOf(s.db, j)) by { assert SliceOk(h, SliceOf(s.db, j)); }
    if rec.intent.Requested? { Acceptance.MarkAccepted(h, s.db, j); }
  }

  lemma SamePlan(row: Job, rec: Job)
    requires Synced(row, rec)
    ensures PlanOf(row) == PlanOf(rec)
  {
  }

  lemma EnterStaysBound(h: string -> string, s: Sys, j: JobId, r0: Job, g: Repo, o: Outcome, rec: Job)
    requires Bound(h, s, j, r0, g, o) && InAcceptance(s.db.jobs[j])
    requires j in s.runners && s.runners[j] == Resuming(rec)
    ensures Course(Enter(h, s, j, rec), j, r0, g, o)
    ensures var s' := Enter(h, s, j, rec);
      InAcceptance(s'.db.jobs[j]) && 0 < Effort(s'.runners[j]) < Effort(s.runners[j])
  {
    assert RunnerOk(s, j, s.runners[j]);
    EnterProceeds(h, s, j, rec);
    SamePlan(s.db.jobs[j], rec);
    CorePlan(s.db.jobs[j], r0);
  }

  /** One reliable command stays on the way to the end of the call. */
  lemma CommandStaysOnWay(g0: Repo, w: Plan, pc: Pc, g: Repo, o: Outcome)
    requires Left(pc) != 0 && Known(g0, w, pc)
    requires Reaches(g0, w, pc, g, o) && Reaches(g0, w, Resolve, g, o)
    ensures var (g', pc') := Command(g0, w, pc, NoFault);
      && Left(pc') < Left(pc) && !pc'.Raised? && Known(g', w, pc')
      && Reaches(g', w, pc', g, o) && Reaches(g', w, Resolve, g, o)
      && (pc'.Done? ==> pc'.outcome == o && Aside(g, g', w))
  {
    var (g', pc') := Command(g0, w, pc, NoFault);
    RestStep(g0, w, pc);
    CommandProgress(g0, w, pc, NoFault);
    CommandAside(g0, g0, w, pc);
    assert Left(pc') == 0 ==> Rest(g', w, pc') == (g', pc');
    if g' != g0 { AfterTheMove(g0, w, pc, g, o); }
  }

  /** Once the merge is made, a whole new call ends in the same place. */
  lemma AfterTheMove(g0: Repo, w: Plan, pc: Pc, g: Repo, o: Outcome)
    requires Command(g0, w, pc, NoFault).0 != g0
    requires Reaches(g0, w, pc, g, o) && Reaches(g0, w, Resolve, g, o)
    ensures Reaches(Command(g0, w, pc, NoFault).0, w, Resolve, g, o)
  {
    MergeReachesEnd(g0, w, pc);
    MoveIsSeen(g0, w, pc);
    assert Reconcile(g0, w).0.Head() == Some(w.acceptedCommit);
    OnlyMergeMoves(g0, w);
    ReconcileTwice(g0, w);
  }

  lemma MergeReachesEnd(g0: Repo, w: Plan, pc: Pc)
    requires Command(g0, w, pc, NoFault).0 != g0
    ensures Rest(g0, w, pc).0 == Command(g0, w, pc, NoFault).0
  {
    RestStep(g0, w, pc);
    VerifyMovesNothing(Command(g0, w, pc, NoFault).0, w);
  }

  lemma GitStepStaysBound(h: string -> string, s: Sys, j: JobId, r0: Job, g: Repo, o: Outcome,
                          rec: Job, d: Dossier, pc: Pc)
    requires Course(s, j, r0, g, o) && InAcceptance(s.db.jobs[j]) && s.db.jobs[j].intent.Requested?
    requires j in s.runners && s.runners[j] == Reconciling(rec, d, pc) && RunnerOk(s, j, s.runners[j])
    ensures Course(GitStep(s, j, rec, d, pc, NoFault), j, r0, g, o)
    ensures 0 < Effort(GitStep(s, j, rec, d, pc, NoFault).runners[j]) < Effort(s.runners[j])
  {
    SamePlan(s.db.jobs[j], rec);
    CorePlan(s.db.jobs[j], r0);
    CommandStaysOnWay(s.git, PlanOf(rec), pc, g, o);
  }

  lemma PublishEnds(h: string -> string, s: Sys, j: JobId, rec: Job, d: Dossier, o: Outcome, reason: string)
    requires SysInv(h, s) && RunnerOk(s, j, Publishing(rec, d, o, reason))
    requires Acceptance.OutcomePossible(s.db.jobs[j], o)
    ensures var s' := PublishStep(h, s, j, rec, d, o, reason);
      && s'.git == s.git && j in s'.db.jobs && j in s'.db.dossiers
      && s'.db.dossiers[j].schemaVersion == d.schemaVersion
      && s'.db.jobs[j] == PublishedRow(s.db.jobs[j], Acceptance.ResumePublication(s.db, j, o, reason))
  {
    assert Publication(d.schemaVersion, d.sha, rec.finalSummary, o, reason)
        == Acceptance.ResumePublication(s.db, j, o, reason);
    PublishWrites(h, s.db, j, o, reason);
  }

  lemma PublishWrites(h: string -> string, db: DB, j: JobId, o: Outcome, reason: string)
    requires Inv(h, db) && j in db.jobs && j in db.dossiers && InAcceptance(db.jobs[j])
    requires Acceptance.OutcomePossible(db.jobs[j], o)
    requires db.jobs[j].intent.Requested? ==> db.jobs[j].phase.Applying?
    ensures var p := Acceptance.ResumePublication(db, j, o, reason);
      var db' := Exec(h, db, SPublish(j, p));
      && j in db'.jobs && db'.jobs[j] == PublishedRow(db.jobs[j], p)
      && j in db'.dossiers && db'.dossiers[j].schemaVersion == db.dossiers[j].schemaVersion
  {
    Acceptance.PublishAccepted(h, db, j, o, reason);
    PublishDossierFrame(h, db, j, Acceptance.ResumePublication(db, j, o, reason));
  }

  lemma PublishDossierFrame(h: string -> string, db: DB, j: JobId, p: Publication)
    requires Publish(h, db, j, p).Ok?
    ensures j in Publish(h, db, j, p).value.dossiers
    ensures Publish(h, db, j, p).value.dossiers[j].schemaVersion == db.dossiers[j].schemaVersion
  {
  }

  /** A published row with this outcome, on this repository, is where the job was bound. */
  lemma PublishedCourse(s': Sys, j: JobId, r0: Job, g: Repo, row: Job, p: Publication)
    requires SameCore(row, r0) && p.finalSummary == row.finalSummary && !p.outcome.Unset?
    requires j in s'.db.jobs && s'.db.jobs[j] == PublishedRow(row, p) && Aside(g, s'.git, PlanOf(r0))
    requires j in s'.db.dossiers && s'.db.dossiers[j].schemaVersion == DOSSIER_SCHEMA_VERSION
    ensures Course(s', j, r0, g, p.outcome)
  {
  }

  lemma PublishStaysBound(h: string -> string, s: Sys, j: JobId, r0: Job, g: Repo, o: Outcome,
                          rec: Job, d: Dossier, reason: string)
    requires SysInv(h, s) && RunnerOk(s, j, Publishing(rec, d, o, reason)) && InAcceptance(s.db.jobs[j])
    requires Course(s, j, r0, g, o) && j in s.runners && s.runners[j] == Publishing(rec, d, o, reason)
    ensures Course(PublishStep(h, s, j, rec, d, o, reason), j, r0, g, o)
    ensures PublishStep(h, s, j, rec, d, o, reason).db.jobs[j].phase.Published?
  {
    var p := Acceptance.ResumePublication(s.db, j, o, reason);
    HeadsPossible(s.git, r0, g, o);
    CorePlan(s.db.jobs[j], r0);
    PublishEnds(h, s, j, rec, d, o, reason);
    PublishedCourse(PublishStep(h, s, j, rec, d, o, reason), j, r0, g, s.db.jobs[j], p);
  }

  lemma HeadsPossible(g0: Repo, row: Job, g: Repo, o: Outcome)
    requires Heads(g0, row, PlanOf(row), g, o)
    ensures Acceptance.OutcomePossible(row, o)
  {
    if row.intent.Requested? { DoneOutcome(g0, PlanOf(row), Resolve); }
  }

  lemma {:induction false} DoneOutcome(g: Repo, w: Plan, pc: Pc)
    requires pc.Done? ==> pc.outcome.Applied? || pc.outcome.Skipped?
    ensures Rest(g, w, pc).1.Done? ==> Rest(g, w, pc).1.outcome.Applied? || Rest(g, w, pc).1.outcome.Skipped?
    decreases Left(pc)
  {
    if Left(pc) != 0 {
      RestStep(g, w, pc);
      CommandProgress(g, w, pc, NoFault);
      DoneOutcome(Command(g, w, pc, NoFault).0, w, Command(g, w, pc, NoFault).1);
    }
  }

  /** Steps a runner still needs. */
  ghost function Effort(r: Runner): nat {
    match r
    case Resuming(_) => 10
    case Reconciling(_, _, pc) => 2 + Left(pc)
    case Publishing(_, _, _, _) => 1
    case _ => 0
  }

  /** Published, or still in acceptance with less left to do. */
  ghost predicate Nearer(s: Sys, s': Sys, j: JobId)
    requires j in s.runners
  {
    && j in s'.db.jobs && j in s'.runners
    && (s'.db.jobs[j].phase.Published?
        || (InAcceptance(s'.db.jobs[j]) && 0 < Effort(s'.runners[j]) < Effort(s.runners[j])))
  }

  lemma GitStepNearer(h: string -> string, s: Sys, j: JobId, r0: Job, g: Repo, o: Outcome,
                      rec: Job, d: Dossier, pc: Pc)
    requires Bound(h, s, j, r0, g, o) && RunnerOk(s, j, Reconciling(rec, d, pc))
    requires j in s.runners && s.runners[j] == Reconciling(rec, d, pc)
    ensures Course(GitStep(s, j, rec, d, pc, NoFault), j, r0, g, o) && Nearer(s, GitStep(s, j, rec, d, pc, NoFault), j)
  {
    PendingUnset(h, s.db, j);
    GitStepStaysBound(h, s, j, r0, g, o, rec, d, pc);
  }

  /** A step of an accepted runner stays on course and brings publication nearer. */
  lemma AdvanceStaysBound(h: string -> string, s: Sys, j: JobId, r0: Job, g: Repo, o: Outcome)
    requires Bound(h, s, j, r0, g, o) && j in s.runners && Effort(s.runners[j]) > 0
    ensures Course(AdvanceStep(h, s, j, NoFault), j, r0, g, o)
    ensures Nearer(s, AdvanceStep(h, s, j, NoFault), j)
  {
    assert RunnerOk(s, j, s.runners[j]);
    match s.runners[j]
    case Resuming(rec) => EnterStaysBound(h, s, j, r0, g, o, rec);
    case Reconciling(rec, d, pc) => GitStepNearer(h, s, j, r0, g, o, rec, d, pc);
    case Publishing(rec, d, o', reason) => PublishStaysBound(h, s, j, r0, g, o, rec, d, reason);
  }

  /** The rows of job j and its runner are as they were. */
  ghost predicate Untouched(s: Sys, s': Sys, j: JobId) {
    && j in s.db.jobs && j in s'.db.jobs && s'.db.jobs[j] == s.db.jobs[j]
    && j in s.db.dossiers && j in s'.db.dossiers && s'.db.dossiers[j] == s.db.dossiers[j]
    && (j in s'.runners ==> j in s.runners && s'.runners[j] == s.runners[j])
  }

  lemma ReachesAside(g0: Repo, g0': Repo, w: Plan, pc: Pc, g: Repo, o: Outcome)
    requires Reaches(g0, w, pc, g, o) && Known(g0, w, pc) && Aside(g0, g0', w)
    ensures Reaches(g0', w, pc, g, o) && Known(g0', w, pc)
  {
    RestAside(g0, g0', w, pc);
    AsideTransitive(g, Rest(g0, w, pc).0, Rest(g0', w, pc).0, w);
  }

  lemma UntouchedStaysOn(s: Sys, s': Sys, j: JobId, r0: Job, g: Repo, o: Outcome)
    requires Course(s, j, r0, g, o) && Untouched(s, s', j) && Aside(s.git, s'.git, PlanOf(r0))
    ensures Course(s', j, r0, g, o)
  {
    var w := PlanOf(r0);
    if Aside(g, s.git, w) { AsideTransitive(g, s.git, s'.git, w); }
    if InAcceptance(s.db.jobs[j]) {
      if r0.intent.Requested? { ReachesAside(s.git, s'.git, w, Resolve, g, o); }
      if j in s'.runners && s'.runners[j].Reconciling? { ReachesAside(s.git, s'.git, w, s'.runners[j].pc, g, o); }
    }
  }

  /** The acceptance of another job. */
  lemma OtherAccepted(h: string -> string, s: Sys, i: JobId, acc: Store.Acceptance, j: JobId)
    requires j in s.db.jobs && j in s.db.dossiers && (i == j ==> !s.db.jobs[j].phase.Ordinary?)
    ensures Untouched(s, Next(h, s, Accept(i, acc)), j)
  {
    var s' := Next(h, s, Accept(i, acc));
    if s'.db != s.db { PrepareFrame(h, s.db, i, acc); }
  }

  lemma EnterFrame(h: string -> string, s: Sys, i: JobId, rec: Job)
    ensures var s' := Enter(h, s, i, rec);
      && s'.git == s.git && (forall j :: j != i && j in s'.runners ==> j in s.runners && s'.runners[j] == s.runners[j])
      && (s'.db != s.db ==> MarkApplyStarted(s.db, i, rec.acceptedCommit) == Ok(s'.db))
  {
  }

  lemma OtherEnters(h: string -> string, s: Sys, i: JobId, rec: Job, j: JobId)
    requires i != j && j in s.db.jobs && j in s.db.dossiers
    ensures Untouched(s, Enter(h, s, i, rec), j)
  {
    EnterFrame(h, s, i, rec);
    if Enter(h, s, i, rec).db != s.db { MarkFrame(s.db, i, rec.acceptedCommit); }
  }

  lemma OtherPublishes(h: string -> string, s: Sys, i: JobId, rec: Job, d: Dossier, o: Outcome, reason: string, j: JobId)
    requires i != j && i in s.db.jobs && j in s.db.jobs && j in s.db.dossiers
    ensures Untouched(s, PublishStep(h, s, i, rec, d, o, reason), j)
  {
    PublishFrame(h, s.db, i, Publication(d.schemaVersion, d.sha, rec.finalSummary, o, reason));
  }

  /** A step of another job's runner. */
  lemma OtherAdvances(h: string -> string, s: Sys, i: JobId, fault: Fault, j: JobId)
    requires SysInv(h, s) && i != j && i in s.runners && j in s.db.jobs && j in s.db.dossiers
    ensures Untouched(s, AdvanceStep(h, s, i, fault), j)
  {
    assert RunnerOk(s, i, s.runners[i]);
    match s.runners[i]
    case Resuming(rec) => OtherEnters(h, s, i, rec, j);
    case Publishing(rec, d, o, reason) => OtherPublishes(h, s, i, rec, d, o, reason, j);
    case _ =>
  }

  lemma SpawnStaysOn(h: string -> string, s: Sys, i: JobId, j: JobId, r0: Job, g: Repo, o: Outcome)
    requires Bound(h, s, j, r0, g, o)
    ensures Course(Next(h, s, Spawn(i)), j, r0, g, o)
  {
    assert i == j || (j in s.runners <==> j in Next(h, s, Spawn(i)).runners);
  }

  /** Steps that are not the job's own and write none of its rows. */
  lemma OthersLeaveUntouched(h: string -> string, s: Sys, l: Label, j: JobId)
    requires SysInv(h, s) && j in s.db.jobs && j in s.db.dossiers && !s.db.jobs[j].phase.Ordinary?
    requires l.Accept? || l.User? || l.Crash? || (l.Advance? && l.j != j)
    ensures Untouched(s, Next(h, s, l), j)
  {
    match l
    case Advance(i, fault) => if i in s.runners { OtherAdvances(h, s, i, fault, j); }
    case Accept(i, acc) => OtherAccepted(h, s, i, acc, j);
    case _ =>
  }

  lemma StepStaysOn(h: string -> string, s: Sys, l: Label, j: JobId, r0: Job, g: Repo, o: Outcome)
    requires Bound(h, s, j, r0, g, o) && Allowed(h, s, l, j, PlanOf(r0))
    ensures Course(Next(h, s, l), j, r0, g, o)
  {
    if l.Write? {
      if OrdinaryWrite(l.step) { WriteStaysBound(h, s, l.step, j, r0, g, o); }
    } else if l.Spawn? {
      SpawnStaysOn(h, s, l.j, j, r0, g, o);
    } else if l == Advance(j, NoFault) {
      if j in s.runners && Effort(s.runners[j]) > 0 { AdvanceStaysBound(h, s, j, r0, g, o); }
    } else {
      OthersLeaveUntouched(h, s, l, j);
      UntouchedStaysOn(s, Next(h, s, l), j, r0, g, o);
    }
  }

  lemma StepStaysBound(h: string -> string, s: Sys, l: Label, j: JobId, r0: Job, g: Repo, o: Outcome)
    requires Bound(h, s, j, r0, g, o) && Allowed(h, s, l, j, PlanOf(r0))
    ensures Bound(h, Next(h, s, l), j, r0, g, o)
  {
    NextKeeps(h, s, l);
    StepStaysOn(h, s, l, j, r0, g, o);
  }

  lemma {:induction false} RunStaysBound(h: string -> string, s: Sys, ls: seq<Label>, j: JobId, r0: Job, g: Repo, o: Outcome)
    requires Bound(h, s, j, r0, g, o) && AllAllowed(h, s, ls, j, PlanOf(r0))
    ensures Bound(h, RunSys(h, s, ls), j, r0, g, o)
    decreases |ls|
  {
    if ls != [] {
      StepStaysBound(h, s, ls[0], j, r0, g, o);
      RunStaysBound(h, Next(h, s, ls[0]), ls[1..], j, r0, g, o);
    }
  }

  // ---- the theorem ---------------------------------------------------------------------

  /** A job whose acceptance has been journaled, its runner at the entry of _resume_accepted_job or gone. */
  ghost predicate Journaled(h: string -> string, s: Sys, j: JobId) {
    && SysInv(h, s)
    && j in s.db.jobs && InAcceptance(s.db.jobs[j])
    && j in s.db.dossiers && s.db.dossiers[j].schemaVersion == DOSSIER_SCHEMA_VERSION
    && (j in s.runners ==> s.runners[j].Resuming? || s.runners[j].Ended?)
    && (s.db.jobs[j].intent.Requested? ==> Healthy(s.git, PlanOf(s.db.jobs[j])))
  }

  lemma AcceptIs(h: string -> string, s: Sys, j: JobId, acc: Store.Acceptance)
    requires j in s.db.jobs && j in s.runners && s.runners[j].Working?
    requires s.db.jobs[j].phase.Ordinary? && acc.intent == Some(IntentOf(s.db.jobs[j]))
    requires PrepareAccepted(h, s.db, j, acc).Ok?
    ensures var db' := PrepareAccepted(h, s.db, j, acc).value;
      && j in db'.jobs && db'.jobs[j] == AcceptedRow(s.db.jobs[j], acc)
      && j in db'.dossiers && db'.dossiers[j].schemaVersion == acc.schemaVersion
      && Next(h, s, Accept(j, acc)) == SetRunner(s.(db := db'), j, Resuming(db'.jobs[j]))
  {
    PrepareFrame(h, s.db, j, acc);
  }

  lemma JournaledShape(h: string -> string, s': Sys, j: JobId, row: Job, acc: Store.Acceptance)
    requires SysInv(h, s') && acc.intent.Some? && j in s'.db.jobs && s'.db.jobs[j] == AcceptedRow(row, acc)
    requires j in s'.db.dossiers && s'.db.dossiers[j].schemaVersion == DOSSIER_SCHEMA_VERSION
    requires j in s'.runners && s'.runners[j].Resuming? && Healthy(s'.git, PlanOf(AcceptedRow(row, acc)))
    ensures Journaled(h, s', j)
  {
  }

  /** The state right after a runner journaled its acceptance is such a state, when the source is healthy. */
  lemma AcceptJournals(h: string -> string, s: Sys, j: JobId, acc: Store.Acceptance)
    requires SysInv(h, s) && j in s.db.jobs && j in s.runners && s.runners[j].Working?
    requires s.db.jobs[j].phase.Ordinary? && acc.intent == Some(IntentOf(s.db.jobs[j]))
    requires PrepareAccepted(h, s.db, j, acc).Ok? && acc.schemaVersion == DOSSIER_SCHEMA_VERSION
    requires Healthy(s.git, PlanOf(AcceptedRow(s.db.jobs[j], acc)))
    ensures Journaled(h, Next(h, s, Accept(j, acc)), j)
  {
    AcceptIs(h, s, j, acc);
    AcceptKeeps(h, s, j, acc);
    JournaledShape(h, Next(h, s, Accept(j, acc)), j, s.db.jobs[j], acc);
  }

  lemma JournaledIsBound(h: string -> string, s: Sys, j: JobId)
    requires Journaled(h, s, j)
    ensures var t := Target(s.git, s.db.jobs[j]); Bound(h, s, j, s.db.jobs[j], t.0, t.1)
  {
    if s.db.jobs[j].intent.Requested? { HealthyDone(s.git, PlanOf(s.db.jobs[j])); }
  }

  /** The job row at the end, but for the text that says how the source was found. */
  ghost function FinalRow(row: Job, o: Outcome): Job {
    row.(state := JobState.Completed, stopRequested := false, error := "", phase := Published, outcome := o, reason := "")
  }

  /** Whatever crashes, restarts, stop requests, other writes, commits and branches elsewhere, other jobs'
      acceptances and runner steps come between journaling and publication, a published job has the outcome
      and the row of the undisturbed call, and the source has its HEAD, its checkout and all its commits. */
  lemma CrashRefinement(h: string -> string, s: Sys, j: JobId, ls: seq<Label>)
    requires Journaled(h, s, j) && AllAllowed(h, s, ls, j, PlanOf(s.db.jobs[j]))
    ensures var s' := RunSys(h, s, ls);
      var w := PlanOf(s.db.jobs[j]);
      var (g, o) := Target(s.git, s.db.jobs[j]);
      && j in s'.db.jobs
      && (InAcceptance(s'.db.jobs[j]) || s'.db.jobs[j].phase.Published?)
      && (InAcceptance(s'.db.jobs[j]) ==>
            Target(s'.git, s'.db.jobs[j]).1 == o && Aside(g, Target(s'.git, s'.db.jobs[j]).0, w))
      && (s'.db.jobs[j].phase.Published? ==>
            Aside(g, s'.git, w) && s'.db.jobs[j].(reason := "") == FinalRow(s.db.jobs[j], o))
  {
    var (g, o) := Target(s.git, s.db.jobs[j]);
    JournaledIsBound(h, s, j);
    RunStaysBound(h, s, ls, j, s.db.jobs[j], g, o);
    var s' := RunSys(h, s, ls);
    assert SliceOk(h, SliceOf(s'.db, j));
    CorePlan(s'.db.jobs[j], s.db.jobs[j]);
  }

  /** The same HEAD under the same checkout, and the accepted ref in the same place. */
  ghost predicate SameSource(x: Repo, y: Repo, w: Plan) {
    && x.checkout == y.checkout && x.clean == y.clean && x.Head() == y.Head()
    && (RefKept(x, w) <==> RefKept(y, w))
  }

  /** So any two such histories that publish agree on the source and, the reason text aside, on the row. */
  lemma HistoriesAgree(h: string -> string, s: Sys, j: JobId, ls1: seq<Label>, ls2: seq<Label>)
    requires Journaled(h, s, j)
    requires AllAllowed(h, s, ls1, j, PlanOf(s.db.jobs[j])) && AllAllowed(h, s, ls2, j, PlanOf(s.db.jobs[j]))
    requires var s1 := RunSys(h, s, ls1); j in s1.db.jobs && s1.db.jobs[j].phase.Published?
    requires var s2 := RunSys(h, s, ls2); j in s2.db.jobs && s2.db.jobs[j].phase.Published?
    ensures SameSource(RunSys(h, s, ls1).git, RunSys(h, s, ls2).git, PlanOf(s.db.jobs[j]))
    ensures RunSys(h, s, ls1).db.jobs[j].(reason := "") == RunSys(h, s, ls2).db.jobs[j].(reason := "")
  {
    CrashRefinement(h, s, j, ls1);
    CrashRefinement(h, s, j, ls2);
  }

  // ---- progress ------------------------------------------------------------------------

  lemma RunCons(h: string -> string, s: Sys, l: Label, rest: seq<Label>)
    ensures RunSys(h, s, [l] + rest) == RunSys(h, Next(h, s, l), rest)
  {
    assert ([l] + rest)[1..] == rest;
  }

  lemma AdvanceBound(h: string -> string, s: Sys, j: JobId, r0: Job, g: Repo, o: Outcome)
    requires Bound(h, s, j, r0, g, o) && j in s.runners && Effort(s.runners[j]) > 0
    ensures Bound(h, Next(h, s, Advance(j, NoFault)), j, r0, g, o) && Nearer(s, Next(h, s, Advance(j, NoFault)), j)
  {
    AdvanceStaysBound(h, s, j, r0, g, o);
    NextKeeps(h, s, Advance(j, NoFault));
  }

  lemma Finishes(h: string -> string, s: Sys, j: JobId, rest: seq<Label>)
    requires j in RunSys(h, Next(h, s, Advance(j, NoFault)), rest).db.jobs
    requires RunSys(h, Next(h, s, Advance(j, NoFault)), rest).db.jobs[j].phase.Published?
    ensures var s' := RunSys(h, s, [Advance(j, NoFault)] + rest);
      j in s'.db.jobs && s'.db.jobs[j].phase.Published?
  {
    RunCons(h, s, Advance(j, NoFault), rest);
  }

  lemma {:induction false} RunnerCompletes(h: string -> string, s: Sys, j: JobId, r0: Job, g: Repo, o: Outcome)
    returns (ls: seq<Label>)
    requires Bound(h, s, j, r0, g, o) && InAcceptance(s.db.jobs[j]) && j in s.runners && Effort(s.runners[j]) > 0
    ensures |ls| <= Effort(s.runners[j]) && forall l <- ls :: l == Advance(j, NoFault)
    ensures j in RunSys(h, s, ls).db.jobs && RunSys(h, s, ls).db.jobs[j].phase.Published?
    decreases Effort(s.runners[j])
  {
    var s1 := Next(h, s, Advance(j, NoFault));
    AdvanceBound(h, s, j, r0, g, o);
    var rest: seq<Label> := [];
    if s1.db.jobs[j].phase.Published? {
      assert RunSys(h, s1, []) == s1;
    } else {
      rest := RunnerCompletes(h, s1, j, r0, g, o);
    }
    Finishes(h, s, j, rest);
    ls := [Advance(j, NoFault)] + rest;
  }

  lemma {:induction false} RunSysConcat(h: string -> string, s: Sys, x: seq<Label>, y: seq<Label>)
    ensures RunSys(h, s, x + y) == RunSys(h, RunSys(h, s, x), y)
    decreases |x|
  {
    if x == [] {
      assert x + y == y;
    } else {
      assert (x + y)[1..] == x[1..] + y;
      RunSysConcat(h, Next(h, s, x[0]), x[1..], y);
    }
  }

  /** The daemon dies and comes back: recovery, then a new runner for the accepted job. */
  function Restart(j: JobId): seq<Label> {
    [Crash, Write(SRecover), Spawn(j)]
  }

  lemma RestartSpawns(h: string -> string, s: Sys, j: JobId, r0: Job, g: Repo, o: Outcome)
    requires Bound(h, s, j, r0, g, o) && InAcceptance(s.db.jobs[j])
    ensures var s' := RunSys(h, s, Restart(j));
      && Bound(h, s', j, r0, g, o) && InAcceptance(s'.db.jobs[j])
      && j in s'.runners && s'.runners[j] == Resuming(s'.db.jobs[j])
  {
    RunThree(h, s, Crash, Write(SRecover), Spawn(j));
    WriteKeepsCore(h, s.db, SRecover, j, r0);
    var s1 := Next(h, s, Crash);
    StepStaysBound(h, s, Crash, j, r0, g, o);
    StepStaysBound(h, s1, Write(SRecover), j, r0, g, o);
    StepStaysBound(h, Next(h, s1, Write(SRecover)), Spawn(j), j, r0, g, o);
  }

  lemma RunThree(h: string -> string, s: Sys, a: Label, b: Label, c: Label)
    ensures RunSys(h, s, [a, b, c]) == Next(h, Next(h, Next(h, s, a), b), c)
  {
    assert [a, b, c] == [a] + ([b] + [c]);
    RunSysConcat(h, s, [a], [b] + [c]);
    RunSysConcat(h, Next(h, s, a), [b], [c]);
    RunOne(h, s, a);
    RunOne(h, Next(h, s, a), b);
    RunOne(h, Next(h, Next(h, s, a), b), c);
  }

  lemma RunOne(h: string -> string, s: Sys, a: Label)
    ensures RunSys(h, s, [a]) == Next(h, s, a)
  {
    assert [a][1..] == [];
  }

  /** From any point of any such history, one more restart completes the job within ten steps. */
  lemma RestartCompletes(h: string -> string, s: Sys, j: JobId, ls: seq<Label>) returns (more: seq<Label>)
    requires Journaled(h, s, j) && AllAllowed(h, s, ls, j, PlanOf(s.db.jobs[j]))
    requires var s1 := RunSys(h, s, ls); j in s1.db.jobs && InAcceptance(s1.db.jobs[j])
    ensures |more| <= 10 && forall l <- more :: l == Advance(j, NoFault)
    ensures var s2 := RunSys(h, s, ls + Restart(j) + more); j in s2.db.jobs && s2.db.jobs[j].phase.Published?
  {
    var (g, o) := Target(s.git, s.db.jobs[j]);
    var r0 := s.db.jobs[j];
    JournaledIsBound(h, s, j);
    RunStaysBound(h, s, ls, j, r0, g, o);
    var s1 := RunSys(h, s, ls);
    RestartSpawns(h, s1, j, r0, g, o);
    more := RunnerCompletes(h, RunSys(h, s1, Restart(j)), j, r0, g, o);
    RunSysConcat(h, s, ls, Restart(j));
    RunSysConcat(h, s, ls + Restart(j), more);
  }
}
