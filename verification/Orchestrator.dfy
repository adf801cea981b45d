/** The acceptance half of the orchestrator as it runs: the resumed acceptance over the store and the
    source repository, and the handlers that end a run. */
module RunJob {
  import opened Model
  import opened Store
  import opened Invariant
  import opened Recovery
  import opened DatabaseClass
  import opened GitRepoClass
  import opened G = Git
  import opened Acceptance
  import opened DossierBuild
  import opened Endings
  import J = Journal
  import opened Awaits
  import Apply

  datatype ResumeEnd = Completes(outcome: Outcome, reason: string) | Fails

  /** The row after publication with this outcome. */
  function CompletedRow(row: Job, outcome: Outcome, reason: string): Job {
    row.(state := JobState.Completed, stopRequested := false, error := "", phase := Published,
         outcome := outcome, reason := Tail(reason, 4000))
  }

  /** The staged dossier passes the checks made before anything is written. */
  predicate Resumable(h: string -> string, db: DB, j: JobId) {
    && j in db.jobs && InAcceptance(db.jobs[j]) && db.jobs[j].acceptedCommit != ""
    && j in db.dossiers && !db.dossiers[j].published
    && db.dossiers[j].schemaVersion == Apply.DOSSIER_SCHEMA_VERSION
    && h(db.dossiers[j].content) == db.dossiers[j].sha
  }

  lemma PublishedFrom(h: string -> string, db: DB, j: JobId, p: Publication)
    requires j in db.jobs && InAcceptance(db.jobs[j]) && Publish(h, db, j, p).Ok?
    ensures Publish(h, db, j, p).value.jobs == db.jobs[j := PublishedRow(db.jobs[j], p)]
  {
  }

  lemma MarkedFrom(db: DB, j: JobId)
    requires j in db.jobs && InAcceptance(db.jobs[j]) && MarkApplyStarted(db, j, db.jobs[j].acceptedCommit).Ok?
    ensures var after := MarkApplyStarted(db, j, db.jobs[j].acceptedCommit).value;
      after.jobs == db.jobs[j := db.jobs[j].(phase := Applying)] && after.dossiers == db.dossiers
  {
  }

  /** The outcomes publication accepts in the phase the job is in. */
  ghost predicate Publishable(row: Job, outcome: Outcome) {
    if row.intent.Requested? then row.phase.Applying? && (outcome.Applied? || outcome.Skipped?) else outcome.NotApplied?
  }

  /** In every state of the invariant a journaled job passes the checks on its dossier. */
  lemma JournaledFits(h: string -> string, db: DB, j: JobId)
    requires Inv(h, db) && j in db.jobs && InAcceptance(db.jobs[j])
    ensures j in db.dossiers && !db.dossiers[j].published && h(db.dossiers[j].content) == db.dossiers[j].sha
    ensures db.jobs[j].acceptedCommit != ""
  {
    assert SliceOk(h, SliceOf(db, j));
  }

  /** Equal but for the ledger. */
  predicate SameRows(a: DB, b: DB) {
    a.jobs == b.jobs && a.tasks == b.tasks && a.attempts == b.attempts && a.dossiers == b.dossiers
  }

  lemma SameRowsSlice(a: DB, b: DB, j: JobId)
    requires SameRows(a, b) && j in a.jobs
    ensures SliceOf(a, j) == SliceOf(b, j)
  {
    assert TasksOf(a, j) == TasksOf(b, j) && AttemptsOf(a, j) == AttemptsOf(b, j);
  }

  /** Nothing in flight or running, and the state the end of the run asks for. */
  ghost predicate Settled(row: Job, after: DB, j: JobId, cancelled: bool) {
    && j in after.jobs && AtRest(SliceOf(after, j))
    && (if !cancelled then after.jobs[j].state.Failed?
        else if row.stopRequested then after.jobs[j].state.Stopped?
        else after.jobs[j].state.Queued?)
  }

  /** What prepare_accepted_job was given, read back from the rows. */
  function JournaledAs(db: DB, j: JobId): Store.Acceptance
    requires j in db.jobs && j in db.dossiers
  {
    var row, d := db.jobs[j], db.dossiers[j];
    Store.Acceptance(row.acceptedCommit, row.finalSummary, Some(row.intent), d.schemaVersion, d.sha, d.content)
  }

  lemma Prepared(h: string -> string, db: DB, j: JobId, acc: Store.Acceptance)
    requires PrepareAccepted(h, db, j, acc).Ok?
    ensures var after := PrepareAccepted(h, db, j, acc).value;
      && acc.intent.Some? && j in after.jobs && InAcceptance(after.jobs[j]) && j in after.dossiers
      && JournaledAs(after, j) == acc
  {
  }

  /** Nobody wrote to the job's tasks or attempts, or changed whether it is to be applied. */
  ghost predicate SameFacts(frozen: DB, at: DB, j: JobId) {
    && TasksOf(at, j) == TasksOf(frozen, j) && AttemptsOf(at, j) == AttemptsOf(frozen, j)
    && j in at.jobs && j in frozen.jobs && at.jobs[j].autoApply == frozen.jobs[j].autoApply
  }

  lemma Rebuildable(h: string -> string, frozen: DB, at: DB, j: JobId, acc: Store.Acceptance)
    requires Inv(h, frozen) && Elapsed(h, frozen, at, j) && SameFacts(frozen, at, j)
    requires at.jobs[j].phase.Ordinary? && PrepareAccepted(h, at, j, acc).Ok?
    ensures acc.intent.Some? && j in PrepareAccepted(h, at, j, acc).value.jobs
    ensures (InputOf(PrepareAccepted(h, at, j, acc).value, j, acc.commit, acc.finalSummary, acc.intent.value)
             == InputOf(frozen, j, acc.commit, acc.finalSummary, acc.intent.value))
            <==> NothingLogged(frozen, at, j)
  {
    var between: seq<Step> :| (forall s <- between :: Bystanding(s, j)) && Run(h, frozen, between) == at;
    RegenerationStable(h, frozen, between, j, acc, []);
    var after := PrepareAccepted(h, at, j, acc).value;
    assert Run(h, after, []) == after;
  }

  /** The event that says how ordinary work ended. */
  function EndName(row: Job, cancelled: bool): string {
    if !cancelled then "job.failed" else if row.stopRequested then "job.stopped" else "job.interrupted"
  }

  class Orchestrator {
    const db: Database
    const repo: GitRepo

    constructor (db: Database, repo: GitRepo)
      ensures this.db == db && this.repo == repo
    {
      this.db, this.repo := db, repo;
    }

    /** mark_apply_started, unless the phase is there already. */
    method MarkStarted(j: JobId) returns (ok: bool)
      requires j in db.jobs && InAcceptance(db.jobs[j])
      modifies db
      ensures ok ==> db.jobs == old(db.jobs)[j := old(db.jobs[j]).(phase := Applying)] && db.dossiers == old(db.dossiers)
      ensures ok && old(db.jobs[j].phase).Accepted? ==>
                MarkApplyStarted(old(db.View()), j, old(db.jobs[j].acceptedCommit)) == Ok(db.View())
      ensures !ok || old(db.jobs[j].phase).Applying? ==> db.View() == old(db.View())
      ensures old(Inv(db.sha256, db.View())) ==> Inv(db.sha256, db.View())
      ensures old(Inv(db.sha256, db.View()) && db.jobs[j].intent.Requested?) ==> ok
    {
      var accepted := db.jobs[j];
      ghost var before := db.View();
      if accepted.phase.Applying? {
        assert db.jobs == db.jobs[j := accepted];
        return true;
      }
      if Inv(db.sha256, before) && accepted.intent.Requested? { MarkAccepted(db.sha256, before, j); }
      var w := db.MarkApplyStarted(j, accepted.acceptedCommit);
      if w.Ok? {
        MarkedFrom(before, j);
        if Inv(db.sha256, before) { J.MarkApplyKeeps(db.sha256, before, j, accepted.acceptedCommit); }
      }
      return w.Ok?;
    }

    /** mark_apply_started and the reconciliation, for a requested application; others write to the store
        while this waits for the lock and for the thread. However it ends, a repository that moved has its
        job durably applying: the phase is written first. */
    method ApplySource(j: JobId, fault: nat -> Fault, isAncestor: (Commit, Commit) -> bool) returns (pc: Pc)
      requires j in db.jobs && InAcceptance(db.jobs[j]) && Answers(isAncestor, repo.parents)
      modifies db, repo
      ensures pc.Raised? || pc.Done?
      ensures j in db.jobs && InAcceptance(db.jobs[j])
      ensures SameButFlags(old(db.jobs[j]).(phase := db.jobs[j].phase), db.jobs[j])
      ensures j in old(db.dossiers) ==> j in db.dossiers && db.dossiers[j] == old(db.dossiers[j])
      ensures old(Inv(db.sha256, db.View())) ==> Inv(db.sha256, db.View())
      ensures repo.View() != old(repo.View()) ==> db.jobs[j].phase.Applying?
      ensures old(db.jobs[j].phase).Applying? ==> db.jobs[j].phase.Applying?
      ensures pc.Done? ==>
                && db.jobs[j].phase.Applying?
                && (repo.View(), pc) == Finish(old(repo.View()), Apply.PlanOf(old(db.jobs[j])), Resolve, fault, 0)
      ensures old(Smooth(j, fault)) ==> pc.Done? && (pc.outcome.Applied? || pc.outcome.Skipped?)
    {
      var plan := Apply.PlanOf(db.jobs[j]);
      if Smooth(j, fault) { HealthyDone(repo.View(), plan); }
      var ok := MarkStarted(j);
      if !ok { return Raised; }
      pc := Reconcile(j, plan, fault, isAncestor);
    }

    /** The reconciliation in its thread, under the lock of the repository, for a job durably applying. */
    method Reconcile(j: JobId, plan: G.Plan, fault: nat -> Fault, isAncestor: (Commit, Commit) -> bool) returns (pc: Pc)
      requires j in db.jobs && db.jobs[j].phase.Applying? && Answers(isAncestor, repo.parents)
      modifies db, repo
      ensures pc.Raised? || pc.Done?
      ensures (repo.View(), pc) == Finish(old(repo.View()), plan, Resolve, fault, 0)
      ensures Stays(old(db.View()), db.View(), j)
      ensures old(Inv(db.sha256, db.View())) ==> Inv(db.sha256, db.View())
    {
      ghost var before := db.View();
      FinishEnds(repo.View(), plan, Resolve, fault, 0);
      Wait(j);  // for the lock
      ghost var locked := db.View();
      pc := repo.ReconcileFastForwardSource(plan, fault, isAncestor);
      Wait(j);  // for the thread
      StaysTransitive(before, locked, db.View(), j);
    }

    /** An await of this runner. */
    method Wait(j: JobId)
      requires j in db.jobs
      modifies db
      ensures Stays(old(db.View()), db.View(), j)
      ensures Elapsed(db.sha256, old(db.View()), db.View(), j)
      ensures old(Inv(db.sha256, db.View())) ==> Inv(db.sha256, db.View())
    {
      ghost var before := db.View();
      Await(db, j);
      ElapsedStays(db.sha256, before, db.View(), j);
    }

    /** publish_completed_job with what was journaled. */
    method PublishAccepted(j: JobId, outcome: Outcome, reason: string) returns (ok: bool)
      requires j in db.jobs && InAcceptance(db.jobs[j]) && j in db.dossiers
      modifies db
      ensures ok ==> db.jobs == old(db.jobs)[j := CompletedRow(old(db.jobs[j]), outcome, reason)]
      ensures ok ==> Publish(db.sha256, old(db.View()), j, old(ResumePublication(db.View(), j, outcome, reason)))
                       == Ok(db.View())
      ensures !ok ==> db.View() == old(db.View())
      ensures old(Inv(db.sha256, db.View())) ==> Inv(db.sha256, db.View())
      ensures old(Inv(db.sha256, db.View()) && Publishable(db.jobs[j], outcome)) ==> ok
    {
      var d, accepted := db.dossiers[j], db.jobs[j];
      var p := Publication(d.schemaVersion, d.sha, accepted.finalSummary, outcome, reason);
      ghost var before := db.View();
      if Inv(db.sha256, before) && Publishable(accepted, outcome) {
        Acceptance.PublishAccepted(db.sha256, before, j, outcome, reason);
      }
      var w := db.PublishCompletedJob(j, p);
      if w.Ok? {
        PublishedFrom(db.sha256, before, j, p);
        if Inv(db.sha256, before) { J.PublishKeeps(db.sha256, before, j, p); }
      }
      return w.Ok?;
    }

    /** The outcome to publish: that of the source application, if one was requested. */
    method ReachOutcome(j: JobId, fault: nat -> Fault, isAncestor: (Commit, Commit) -> bool)
      returns (reached: Option<(Outcome, string)>)
      requires Resumable(db.sha256, db.View(), j) && Answers(isAncestor, repo.parents)
      modifies db, repo
      ensures j in db.jobs && InAcceptance(db.jobs[j]) && j in db.dossiers && db.dossiers[j] == old(db.dossiers[j])
      ensures SameButFlags(old(db.jobs[j]).(phase := db.jobs[j].phase), db.jobs[j])
      ensures reached.Some? && old(db.jobs[j].intent).Requested? ==>
                (repo.View(), Done(reached.value.0, reached.value.1))
                == Finish(old(repo.View()), Apply.PlanOf(old(db.jobs[j])), Resolve, fault, 0)
      ensures old(db.jobs[j].intent).NotRequested? ==>
                db.View() == old(db.View()) && repo.View() == old(repo.View()) && reached == Some((NotApplied, ""))
      ensures repo.View() != old(repo.View()) ==> db.jobs[j].phase.Applying?
      ensures old(Clear(j, fault)) ==>
                reached.Some? && Publishable(db.jobs[j], reached.value.0)
      ensures old(Inv(db.sha256, db.View())) ==> Inv(db.sha256, db.View())
    {
      if db.jobs[j].intent.NotRequested? { return Some((NotApplied, "")); }
      var pc := ApplySource(j, fault, isAncestor);
      if pc.Raised? { return None; }
      return Some((pc.outcome, pc.reason));
    }

    /** _resume_accepted_job: check the dossier, apply the source if that was requested, publish. Whatever
        others write at its awaits, what is published is what the repository gave; an error leaves the job
        in acceptance, to be resumed. */
    method ResumeAcceptedJob(j: JobId, fault: nat -> Fault, isAncestor: (Commit, Commit) -> bool) returns (r: ResumeEnd)
      requires j in db.jobs && Answers(isAncestor, repo.parents)
      modifies db, repo
      ensures j in db.jobs
      ensures !old(Resumable(db.sha256, db.View(), j)) ==>
                r.Fails? && db.View() == old(db.View()) && repo.View() == old(repo.View())
      ensures r.Completes? ==> db.jobs[j] == CompletedRow(old(db.jobs[j]), r.outcome, r.reason)
      ensures r.Completes? && old(db.jobs[j].intent).Requested? ==>
                (repo.View(), Done(r.outcome, r.reason))
                == Finish(old(repo.View()), Apply.PlanOf(old(db.jobs[j])), Resolve, fault, 0)
      ensures r.Completes? && old(db.jobs[j].intent).NotRequested? ==>
                && db.jobs == old(db.jobs)[j := db.jobs[j]] && repo.View() == old(repo.View())
                && r == Completes(NotApplied, "")
      ensures repo.View() != old(repo.View()) ==>
                old(db.jobs[j].intent).Requested? && (db.jobs[j].phase.Applying? || db.jobs[j].phase.Published?)
      ensures r.Fails? && old(InAcceptance(db.jobs[j])) ==>
                InAcceptance(db.jobs[j]) && SameButFlags(old(db.jobs[j]).(phase := db.jobs[j].phase), db.jobs[j])
      ensures old(Clear(j, fault)) ==> r.Completes?
      ensures old(Inv(db.sha256, db.View())) ==> Inv(db.sha256, db.View())
    {
      if Clear(j, fault) { ClearIsResumable(j, fault); }
      if !Resumable(db.sha256, db.View(), j) { return Fails; }
      var reached := ReachOutcome(j, fault, isAncestor);
      if reached.None? { return Fails; }
      var (outcome, reason) := reached.value;
      var ok := PublishAccepted(j, outcome, reason);
      return if ok then Completes(outcome, reason) else Fails;
    }

    /** The journaling half of _complete_accepted_job: build the dossier of the commit in a thread, then
        journal. Others may write before the dossier is frozen, and again before it is journaled. */
    method Journal(j: JobId, head: Commit, summary: string, r: Renderer)
      returns (ok: bool, ghost frozen: DB, ghost at: DB)
      requires j in db.jobs && r.h == db.sha256
      modifies db
      ensures j in db.jobs && j in frozen.jobs && j in at.jobs
      ensures Elapsed(db.sha256, old(db.View()), frozen, j) && Elapsed(db.sha256, frozen, at, j)
      ensures ok ==>
                && InAcceptance(db.jobs[j]) && j in db.dossiers
                && db.jobs[j].acceptedCommit == head && db.jobs[j].finalSummary == summary
                && db.jobs[j].intent == Apply.IntentOf(old(db.jobs[j]))
                && PrepareAccepted(db.sha256, at, j, JournaledAs(db.View(), j)) == Ok(db.View())
                && IsDossier(r, InputOf(frozen, j, head, summary, db.jobs[j].intent), db.dossiers[j].content)
      ensures !ok ==> db.View() == at && db.jobs[j].phase == old(db.jobs[j].phase)
      ensures ok && old(Inv(db.sha256, db.View()) && db.jobs[j].phase.Ordinary?) && SameFacts(frozen, at, j) ==>
                (InputOf(db.View(), j, head, summary, db.jobs[j].intent) == InputOf(frozen, j, head, summary, db.jobs[j].intent)
                 <==> NothingLogged(frozen, at, j))
      ensures old(Inv(db.sha256, db.View())) ==> Inv(db.sha256, db.View())
    {
      var intent := if db.jobs[j].autoApply then Requested else NotRequested;
      ghost var before := db.View();
      Wait(j);  // for HEAD
      frozen := db.View();
      var built := BuildDossier(db, r, j, head, summary, intent);
      Wait(j);  // for the thread
      at := db.View();
      if !built.Rendered? { return false, frozen, at; }
      var acc := Store.Acceptance(head, summary, Some(intent), Apply.DOSSIER_SCHEMA_VERSION, built.sha, built.content);
      var w := db.PrepareAcceptedJob(j, acc);
      if w.Ok? {
        Prepared(db.sha256, at, j, acc);
        if Inv(db.sha256, before) { J.PrepareKeeps(db.sha256, at, j, acc); }
        if Inv(db.sha256, before) && before.jobs[j].phase.Ordinary? && SameFacts(frozen, at, j) {
          Rebuildable(db.sha256, frozen, at, j, acc);
        }
      }
      return w.Ok?, frozen, at;
    }

    /** _complete_accepted_job: what completes is the commit and the summary that were passed in. */
    method CompleteAcceptedJob(j: JobId, head: Commit, summary: string, r: Renderer, fault: nat -> Fault,
                               isAncestor: (Commit, Commit) -> bool) returns (end: ResumeEnd)
      requires j in db.jobs && r.h == db.sha256 && Answers(isAncestor, repo.parents)
      modifies db, repo
      ensures end.Completes? ==>
                && j in db.jobs && db.jobs[j].state.Completed? && db.jobs[j].phase.Published?
                && db.jobs[j].acceptedCommit == head && db.jobs[j].finalSummary == summary
                && db.jobs[j].outcome == end.outcome
                && (end.outcome.NotApplied? <==> !old(db.jobs[j].autoApply))
      ensures j in db.jobs
      ensures old(db.jobs[j].phase).Ordinary? && !db.jobs[j].phase.Ordinary? ==>
                db.jobs[j].acceptedCommit == head && db.jobs[j].finalSummary == summary
      ensures repo.View() != old(repo.View()) ==>
                old(db.jobs[j].autoApply) && (db.jobs[j].phase.Applying? || db.jobs[j].phase.Published?)
      ensures old(Inv(db.sha256, db.View())) ==> Inv(db.sha256, db.View())
    {
      var ok, frozen, at := Journal(j, head, summary, r);
      if !ok { return Fails; }
      label Journaled:
      end := ResumeAcceptedJob(j, fault, isAncestor);
      if end.Completes? && old@Journaled(db.jobs[j].intent).Requested? {
        DoneApplies(old@Journaled(repo.View()), Apply.PlanOf(old@Journaled(db.jobs[j])), Resolve, fault, 0);
      }
    }

    // ---- the handlers of run_job -------------------------------------------------------

    /** The two writes and the event that end ordinary work. */
    method Settle(j: JobId, ts: TaskState, ats: AttemptState, text: string, p: JobPatch, event: string) returns (ok: bool)
      requires j in db.jobs
      modifies db
      ensures ok <==> SettleThenUpdate(old(db.View()), j, ts, ats, text, p).Ok?
      ensures ok ==> SameRows(SettleThenUpdate(old(db.View()), j, ts, ats, text, p).value, db.View())
      ensures ok ==> db.events == old(db.events) + [Event(j, None, Other(event, "{}"))]
    {
      ghost var before := db.View();
      var w := db.SettleInflight(j, ts, ats, text);
      if w.Err? { return false; }
      ghost var settled := db.View();
      w := db.UpdateJob(j, p);
      if w.Err? { return false; }
      SettledThenPatched(before, j, ts, ats, text, p, settled, db.View());
      w := db.LogEvent(j, None, event, "{}");
      return true;
    }

    /** The handlers for ordinary work: a stop, an interruption, or an error. */
    method EndOrdinary(j: JobId, cancelled: bool, error: string) returns (ok: bool)
      requires j in db.jobs
      modifies db
      ensures ok <==> HandlerWrites(old(db.View()), j, cancelled, error).Ok?
      ensures ok ==> SameRows(HandlerWrites(old(db.View()), j, cancelled, error).value, db.View())
      ensures ok ==> db.events == old(db.events) + [Event(j, None, Other(EndName(old(db.jobs[j]), cancelled), "{}"))]
    {
      if !cancelled {
        ok := Settle(j, TaskState.Failed, AttemptState.Failed, FAILURE + error,
                     JobPatch(state := Some(JobState.Failed), error := Some(error)), "job.failed");
      } else if db.jobs[j].stopRequested {
        ok := Settle(j, TaskState.Stopped, AttemptState.Cancelled, "stopped by user request",
                     JobPatch(state := Some(JobState.Stopped)), "job.stopped");
      } else {
        ok := Settle(j, TaskState.Pending, AttemptState.Cancelled, "orchestrator interrupted",
                     JobPatch(state := Some(JobState.Queued)), "job.interrupted");
      }
    }

    /** The handler of CancelledError, and of any other error, once the workers are cancelled. Accepted
        work only gets an event; ordinary work is settled and at rest in the state its stop flag asks for,
        unless the last write finds no transition, and that is known beforehand. */
    method EndRun(j: JobId, cancelled: bool, error: string) returns (ok: bool)
      requires j in db.jobs
      modifies db
      ensures old(InAcceptance(db.jobs[j])) ==>
                && ok && SameRows(old(db.View()), db.View())
                && db.events == old(db.events) + [Event(j, None, Other("job.acceptance_recovery_required", error))]
      ensures old(Settleable(j)) ==>
                && (ok <==> HandlerFits(old(db.jobs[j]), cancelled))
                && (ok ==> Settled(old(db.jobs[j]), db.View(), j, cancelled))
                && (ok ==> EndedRows(old(db.View()), db.View(), j, cancelled, error))
                && (ok ==> db.events == old(db.events) + [Event(j, None, Other(EndName(old(db.jobs[j]), cancelled), "{}"))])
    {
      ghost var before := db.View();
      if InAcceptance(db.jobs[j]) {
        var _ := db.LogEvent(j, None, "job.acceptance_recovery_required", error);
        return true;
      }
      ghost var settleable := Settleable(j);
      if settleable { StoppedIsAsked(db.sha256, before, j); }
      if cancelled && db.jobs[j].state.Completed? { return true; }
      ok := EndOrdinary(j, cancelled, error);
      if settleable { HandlersSettleTheJob(db.sha256, before, j, cancelled, error); }
      if settleable && ok {
        SameRowsSlice(HandlerWrites(before, j, cancelled, error).value, db.View(), j);
        HandlersStore(before, j, cancelled, error, HandlerWrites(before, j, cancelled, error).value);
      }
    }

    /** Ordinary work. */
    ghost predicate Settleable(j: JobId)
      requires j in db.jobs
      reads db
    {
      Inv(db.sha256, db.View()) && db.jobs[j].phase.Ordinary?
    }

    /** The state from which a resumed acceptance is bound to complete. */
    ghost predicate Clear(j: JobId, fault: nat -> Fault)
      requires j in db.jobs
      reads db, repo
    {
      && Inv(db.sha256, db.View()) && InAcceptance(db.jobs[j])
      && j in db.dossiers && db.dossiers[j].schemaVersion == Apply.DOSSIER_SCHEMA_VERSION
      && (db.jobs[j].intent.Requested? ==> Smooth(j, fault))
    }

    lemma ClearIsResumable(j: JobId, fault: nat -> Fault)
      requires j in db.jobs && Clear(j, fault)
      ensures Resumable(db.sha256, db.View(), j)
    {
      JournaledFits(db.sha256, db.View(), j);
    }

    /** Nothing stands in the way of a requested application but the user. */
    ghost predicate Smooth(j: JobId, fault: nat -> Fault)
      requires j in db.jobs
      reads db, repo
    {
      && Inv(db.sha256, db.View()) && db.jobs[j].intent.Requested?
      && fault == Reliable && Healthy(repo.View(), Apply.PlanOf(db.jobs[j]))
    }
  }

  /** A call that ends without an error gives 'applied' or 'skipped'. */
  lemma {:induction false} DoneApplies(g: Repo, w: G.Plan, pc: Pc, fault: nat -> Fault, n: nat)
    requires pc.Done? ==> pc.outcome.Applied? || pc.outcome.Skipped?
    ensures var end := Finish(g, w, pc, fault, n).1; end.Done? ==> end.outcome.Applied? || end.outcome.Skipped?
    decreases Left(pc)
  {
    if Left(pc) != 0 {
      CommandProgress(g, w, pc, fault(n));
      var (g', pc') := Command(g, w, pc, fault(n));
      DoneApplies(g', w, pc', fault, n + 1);
    }
  }

  lemma {:induction false} FinishEnds(g: Repo, w: G.Plan, pc: Pc, fault: nat -> Fault, n: nat)
    ensures Finish(g, w, pc, fault, n).1.Done? || Finish(g, w, pc, fault, n).1.Raised?
    decreases Left(pc)
  {
    if Left(pc) != 0 {
      CommandProgress(g, w, pc, fault(n));
      var (g', pc') := Command(g, w, pc, fault(n));
      FinishEnds(g', w, pc', fault, n + 1);
    }
  }
}
