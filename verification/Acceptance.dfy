/** What the journal none -> accepted -> applying -> published guarantees over whole runs. */
module Acceptance {
  import opened Model
  import opened StateMachine
  import opened Store
  import opened Invariant
  import opened Preservation
  import opened Recovery
  import Journal
  import opened Runs

  /** Once accepted, no run of writes (stops, failures, resumes and recoveries included) queues, stops
      or fails the job, moves the phase back, or changes what was accepted and what lies below it. */
  lemma AcceptanceIsOneWay(h: string -> string, db: DB, j: JobId, steps: seq<Step>)
    requires Inv(h, db) && j in db.jobs && !db.jobs[j].phase.Ordinary?
    ensures var db' := Run(h, db, steps);
      && j in db'.jobs && j in db.dossiers && j in db'.dossiers
      && var x, y := db.jobs[j], db'.jobs[j];
      && (y.state.Running? || y.state.Stopping? || y.state.Completed?)
      && Rank(x.phase) <= Rank(y.phase)
      && y.acceptedCommit == x.acceptedCommit != "" && y.intent == x.intent
      && db'.dossiers[j] == db.dossiers[j].(published := y.phase.Published?)
      && TasksOf(db', j) == TasksOf(db, j) && AttemptsOf(db', j) == AttemptsOf(db, j)
  {
    var db' := Run(h, db, steps);
    RunKeeps(h, db, steps);
    var x, y := SliceOf(db, j), SliceOf(db', j);
    assert SliceAdvances(x, y);
    assert SliceOk(h, x) && SliceOk(h, y);
  }

  /** get_dossier: only a published row is visible. */
  ghost predicate Visible(db: DB, j: JobId) {
    j in db.dossiers && db.dossiers[j].published
  }

  lemma LedgerCounts(db: DB, j: JobId)
    requires j in db.jobs && LedgerOk(db, j)
    ensures Count(db.events, j, TAccepted) == Due(db.jobs[j], TAccepted)
    ensures Count(db.events, j, TApplyStarted) == Due(db.jobs[j], TApplyStarted)
    ensures Count(db.events, j, TDossier) == Due(db.jobs[j], TDossier)
    ensures Count(db.events, j, TApplied) == Due(db.jobs[j], TApplied)
    ensures Count(db.events, j, TSkipped) == Due(db.jobs[j], TSkipped)
    ensures Count(db.events, j, TCompleted) == Due(db.jobs[j], TCompleted)
  {
  }

  lemma PublishedTasks(h: string -> string, db: DB, j: JobId)
    requires j in db.jobs && SliceOk(h, SliceOf(db, j)) && db.jobs[j].phase.Published?
    ensures forall t <- db.tasks :: TaskOf(db, t, j) ==> db.tasks[t].state.Completed?
  {
    forall t | t in db.tasks && TaskOf(db, t, j) ensures db.tasks[t].state.Completed? {
      assert t in SliceOf(db, j).tasks;
    }
  }

  /** In every reachable state COMPLETED, the phase 'published' and a visible dossier coincide; then the
      digest matches, the outcome fits the intent, and the ledger holds each journal entry exactly once. */
  lemma PublicationInvariant(h: string -> string, db: DB, j: JobId)
    requires Reachable(h, db) && j in db.jobs
    ensures db.jobs[j].state.Completed? <==> db.jobs[j].phase.Published?
    ensures Visible(db, j) <==> db.jobs[j].phase.Published?
    ensures var job := db.jobs[j];
      !job.phase.Ordinary? ==>
        && job.acceptedCommit != "" && j in db.dossiers
        && DigestMatches(h, db.dossiers[j].content, db.dossiers[j].sha)
        && Count(db.events, j, TAccepted) == 1
    ensures var job := db.jobs[j];
      Count(db.events, j, TDossier) == Count(db.events, j, TCompleted) == (if job.phase.Published? then 1 else 0)
    ensures var job := db.jobs[j];
      job.phase.Published? ==>
        && (forall t <- db.tasks :: TaskOf(db, t, j) ==> db.tasks[t].state.Completed?)
        && (job.intent.Requested? ==>
              && Count(db.events, j, TApplyStarted) == 1
              && Count(db.events, j, TApplied) + Count(db.events, j, TSkipped) == 1
              && (job.outcome.Applied? <==> Count(db.events, j, TApplied) == 1))
        && (job.intent.NotRequested? ==>
              && job.outcome.NotApplied? && Count(db.events, j, TApplyStarted) == 0
              && Count(db.events, j, TApplied) == Count(db.events, j, TSkipped) == 0)
  {
    assert SliceOk(h, SliceOf(db, j)) && LedgerOk(db, j) by { ReachableInv(h, db); }
    LedgerCounts(db, j);
    if db.jobs[j].phase.Published? { PublishedTasks(h, db, j); }
  }

  // ---- replays -------------------------------------------------------------------------

  /** From preparation to publication the store keeps exactly what was prepared. */
  lemma PreparedStays(h: string -> string, db: DB, j: JobId, acc: Acceptance, steps: seq<Step>)
    requires Inv(h, db) && j in db.jobs && db.jobs[j].phase.Ordinary? && PrepareAccepted(h, db, j, acc).Ok?
    ensures var db' := Run(h, PrepareAccepted(h, db, j, acc).value, steps);
      && acc.intent.Some? && j in db'.jobs && !db'.jobs[j].phase.Ordinary?
      && (!db'.jobs[j].phase.Published? ==> SameAcceptance(db', j, acc))
  {
    var db1 := PrepareAccepted(h, db, j, acc).value;
    Journal.PrepareKeeps(h, db, j, acc);
    RunKeeps(h, db1, steps);
    assert SliceAdvances(SliceOf(db1, j), SliceOf(Run(h, db1, steps), j));
  }

  lemma PreparedAnswers(h: string -> string, db: DB, j: JobId, acc: Acceptance, again: Acceptance)
    requires j in db.jobs && InAcceptance(db.jobs[j]) && acc.intent.Some? && SameAcceptance(db, j, acc)
    ensures again != acc ==> PrepareAccepted(h, db, j, again).Err?
    ensures PrepareAccepted(h, db, j, acc).Ok? ==> PrepareAccepted(h, db, j, acc) == Ok(db)
  {
  }

  /** Preparing again with the same metadata changes nothing, however many ordinary steps lie between;
      with other metadata it is refused. */
  lemma PrepareReplay(h: string -> string, db: DB, j: JobId, acc: Acceptance, steps: seq<Step>, again: Acceptance)
    requires Inv(h, db) && j in db.jobs && db.jobs[j].phase.Ordinary? && PrepareAccepted(h, db, j, acc).Ok?
    requires var db' := Run(h, PrepareAccepted(h, db, j, acc).value, steps);
      j in db'.jobs && !db'.jobs[j].phase.Published?
    ensures var db' := Run(h, PrepareAccepted(h, db, j, acc).value, steps);
      if again == acc then PrepareAccepted(h, db', j, again) == Ok(db')
      else PrepareAccepted(h, db', j, again).Err?
  {
    PreparedStays(h, db, j, acc, steps);
    PreparedAnswers(h, Run(h, PrepareAccepted(h, db, j, acc).value, steps), j, acc, again);
  }

  /** What publish_completed_job does with a job that is published already. */
  lemma PublishedAnswers(h: string -> string, db: DB, j: JobId, q: Publication)
    requires Inv(h, db) && j in db.jobs && db.jobs[j].phase.Published?
    ensures j in db.dossiers
    ensures var d := db.dossiers[j];
      Publish(h, db, j, q) == if q.schemaVersion == d.schemaVersion && q.sha == d.sha && q.outcome == db.jobs[j].outcome
                              then Ok(db) else Err(if q.outcome.Unset? then ValueError else StateTransitionError)
  {
    assert SliceOk(h, SliceOf(db, j));
  }

  lemma PublishedStays(h: string -> string, db: DB, j: JobId, p: Publication, steps: seq<Step>)
    requires Inv(h, db) && Publish(h, db, j, p).Ok?
    ensures var db' := Run(h, Publish(h, db, j, p).value, steps);
      && Inv(h, db') && j in db'.jobs && db'.jobs[j].phase.Published? && db'.jobs[j].outcome == p.outcome
      && j in db'.dossiers && db'.dossiers[j].schemaVersion == p.schemaVersion && db'.dossiers[j].sha == p.sha
  {
    var db1 := Publish(h, db, j, p).value;
    var db' := Run(h, db1, steps);
    Journal.PublishKeeps(h, db, j, p);
    RunKeeps(h, db1, steps);
    assert SliceOk(h, SliceOf(db, j)) && SliceOk(h, SliceOf(db1, j));
    assert SliceAdvances(SliceOf(db1, j), SliceOf(db', j));
  }

  /** Publishing again, at any later time: the same outcome of the same dossier changes nothing, whatever
      summary and reason come with it; another outcome or another dossier is refused. */
  lemma PublishReplay(h: string -> string, db: DB, j: JobId, p: Publication, steps: seq<Step>, q: Publication)
    requires Inv(h, db) && Publish(h, db, j, p).Ok?
    ensures var db' := Run(h, Publish(h, db, j, p).value, steps);
      if q.schemaVersion == p.schemaVersion && q.sha == p.sha && q.outcome == p.outcome
      then Publish(h, db', j, q) == Ok(db') else Publish(h, db', j, q).Err?
  {
    PublishedStays(h, db, j, p, steps);
    PublishedAnswers(h, Run(h, Publish(h, db, j, p).value, steps), j, q);
  }

  // ---- publication can always be reached -----------------------------------------------

  /** What _resume_accepted_job hands to publish_completed_job. */
  ghost function ResumePublication(db: DB, j: JobId, outcome: Outcome, reason: string): Publication
    requires j in db.jobs && j in db.dossiers
  {
    Publication(db.dossiers[j].schemaVersion, db.dossiers[j].sha, db.jobs[j].finalSummary, outcome, reason)
  }

  lemma MarkAccepted(h: string -> string, db: DB, j: JobId)
    requires Inv(h, db) && j in db.jobs && InAcceptance(db.jobs[j]) && db.jobs[j].intent.Requested?
    ensures var r := MarkApplyStarted(db, j, db.jobs[j].acceptedCommit);
      r.Ok? && r.value.jobs == db.jobs[j := db.jobs[j].(phase := Applying)] && r.value.dossiers == db.dossiers
    ensures Inv(h, MarkApplyStarted(db, j, db.jobs[j].acceptedCommit).value)
  {
    assert SliceOk(h, SliceOf(db, j));
    if db.jobs[j].phase.Accepted? {
      var db' := Log(PutJob(db, j, db.jobs[j].(phase := Applying)), j, ApplyStarted(db.jobs[j].acceptedCommit));
      PutJobSlice(db, j, db.jobs[j].(phase := Applying));
      Journal.SameRows(PutJob(db, j, db.jobs[j].(phase := Applying)), db');
      Journal.ApplyingSlice(h, SliceOf(db, j));
      OkSliceAccepted(h, SliceOf(db', j));
      SnapshotByRows(db', j);
      Journal.MarkApplyKeeps(h, db, j, db.jobs[j].acceptedCommit);
    }
  }

  lemma PublishAccepted(h: string -> string, db: DB, j: JobId, outcome: Outcome, reason: string)
    requires Inv(h, db) && j in db.jobs && InAcceptance(db.jobs[j])
    requires db.jobs[j].intent.NotRequested? ==> outcome.NotApplied?
    requires db.jobs[j].intent.Requested? ==> db.jobs[j].phase.Applying? && (outcome.Applied? || outcome.Skipped?)
    ensures j in db.dossiers
    ensures var p := ResumePublication(db, j, outcome, reason);
      Publish(h, db, j, p).Ok? && Publish(h, db, j, p).value.jobs == db.jobs[j := PublishedRow(db.jobs[j], p)]
  {
    assert SliceOk(h, SliceOf(db, j));
    var p := ResumePublication(db, j, outcome, reason);
    var d := db.dossiers[j].(published := true);
    var more := PublicationEvents(j, db.jobs[j], p);
    var db' := Journal.PutDossier(PutJob(db, j, PublishedRow(db.jobs[j], p)), j, d).(events := db.events + more);
    Journal.PutJobAndDossier(db, db', j, PublishedRow(db.jobs[j], p), d, more);
    Journal.PublishedSlice(h, SliceOf(db, j), p, SliceOf(db', j));
    OkSliceAccepted(h, SliceOf(db', j));
    SnapshotByRows(db', j);
  }

  /** The durable writes of _resume_accepted_job for a given outcome of source application. */
  ghost function ResumeAccepted(h: string -> string, db: DB, j: JobId, outcome: Outcome, reason: string): Result<DB>
    requires j in db.jobs && j in db.dossiers
  {
    var r := if db.jobs[j].intent.Requested? && db.jobs[j].phase.Accepted?
             then MarkApplyStarted(db, j, db.jobs[j].acceptedCommit) else Ok(db);
    if r.Err? then r else Publish(h, r.value, j, ResumePublication(db, j, outcome, reason))
  }

  ghost predicate OutcomePossible(job: Job, outcome: Outcome) {
    if job.intent.Requested? then outcome.Applied? || outcome.Skipped? else outcome.NotApplied?
  }

  lemma MarkedThenPublished(h: string -> string, db: DB, db1: DB, j: JobId, outcome: Outcome, reason: string)
    requires Inv(h, db1) && j in db.jobs && j in db.dossiers && InAcceptance(db.jobs[j]) && db.jobs[j].intent.Requested?
    requires db1.jobs == db.jobs[j := db.jobs[j].(phase := Applying)] && db1.dossiers == db.dossiers
    requires outcome.Applied? || outcome.Skipped?
    ensures var r := Publish(h, db1, j, ResumePublication(db1, j, outcome, reason));
      r.Ok? && r.value.jobs == db.jobs[j := PublishedRow(db.jobs[j], ResumePublication(db, j, outcome, reason))]
  {
    PublishAccepted(h, db1, j, outcome, reason);
  }

  lemma ResumeAcceptedPublishes(h: string -> string, db: DB, j: JobId, outcome: Outcome, reason: string)
    requires Inv(h, db) && j in db.jobs && InAcceptance(db.jobs[j]) && OutcomePossible(db.jobs[j], outcome)
    ensures j in db.dossiers
    ensures var r := ResumeAccepted(h, db, j, outcome, reason);
      r.Ok? && r.value.jobs == db.jobs[j := PublishedRow(db.jobs[j], ResumePublication(db, j, outcome, reason))]
  {
    assert j in db.dossiers by { assert SliceOk(h, SliceOf(db, j)); }
    assert db.jobs[j].intent.NotRequested? ==> db.jobs[j].phase.Accepted? by { assert SliceOk(h, SliceOf(db, j)); }
    if db.jobs[j].intent.Requested? && db.jobs[j].phase.Accepted? {
      MarkAccepted(h, db, j);
      MarkedThenPublished(h, db, MarkApplyStarted(db, j, db.jobs[j].acceptedCommit).value, j, outcome, reason);
    } else {
      PublishAccepted(h, db, j, outcome, reason);
    }
  }

  /** After any crash, recovery followed by the resumed acceptance reaches publication, with the summary
      and the commit that were accepted. */
  lemma RecoveryReachesPublication(h: string -> string, db: DB, j: JobId, outcome: Outcome, reason: string)
    requires Inv(h, db) && j in db.jobs && InAcceptance(db.jobs[j]) && OutcomePossible(db.jobs[j], outcome)
    ensures RecoverIncomplete(db).Ok? && j in AcceptedIds(db)
    ensures var db1 := RecoverIncomplete(db).value;
      && j in db1.jobs && j in db1.dossiers
      && var r := ResumeAccepted(h, db1, j, outcome, reason);
      && r.Ok? && j in r.value.jobs
      && r.value.jobs[j] == db.jobs[j].(state := JobState.Completed, stopRequested := false, error := "",
                                        phase := Published, outcome := outcome, reason := Tail(reason, 4000))
  {
    RecoverNeverRaises(h, db);
    RecoverKeeps(h, db);
    RecoverSettlesEveryJob(h, db, j);
    assert SliceOk(h, SliceOf(db, j));
    var db1 := RecoveredRows(db);
    assert db1.jobs[j] == SliceOf(db1, j).job;
    ResumeAcceptedPublishes(h, db1, j, outcome, reason);
  }

  // ---- the handlers of run_job ---------------------------------------------------------

  lemma SettleAccepted(h: string -> string, db: DB, j: JobId, ts: TaskState, ats: AttemptState, summary: string)
    requires Inv(h, db) && j in db.jobs && db.jobs[j].phase.Ordinary?
    requires ts in {TaskState.Pending, TaskState.Failed, TaskState.Stopped}
    requires ats in {AttemptState.Cancelled, AttemptState.Failed}
    ensures SettleInflight(db, j, ts, ats, summary).Ok?
    ensures SettleInflight(db, j, ts, ats, summary).value.jobs == db.jobs
    ensures AtRest(SliceOf(SettleInflight(db, j, ts, ats, summary).value, j))
  {
    var text := Tail(summary, 8000);
    var db' := SettleTasks(CloseAttempts(db, {j}, ats, text), {j}, ts, text);
    SettleSlices(db, {j}, ts, ats, text, text, j);
    assert SliceOk(h, SliceOf(db, j));
    SettledBoth(h, SliceOf(db, j), ts, ats, text, text);
    OkSliceAccepted(h, SliceOf(db', j));
    SnapshotByRows(db', j);
  }

  lemma IdleUpdateAccepted(h: string -> string, db: DB, j: JobId, p: JobPatch)
    requires Inv(h, db) && j in db.jobs && db.jobs[j].phase.Ordinary? && AtRest(SliceOf(db, j))
    requires p == JobPatch(state := p.state, error := p.error) && p.state.Some?
    requires p.state.value in JobTransitions(db.jobs[j].state) && !p.state.value.Completed?
    requires p.state.value.Stopped? ==> db.jobs[j].stopRequested
    ensures UpdateJob(db, j, p).Ok? && UpdateJob(db, j, p).value.jobs[j] == p.On(db.jobs[j])
  {
    var db' := PutJob(db, j, p.On(db.jobs[j]));
    PutJobSlice(db, j, p.On(db.jobs[j]));
    assert SliceOk(h, SliceOf(db, j));
    IdleJobSlice(h, SliceOf(db, j), p.On(db.jobs[j]));
    OkSliceAccepted(h, SliceOf(db', j));
    SnapshotByRows(db', j);
  }

  ghost function SettleThenUpdate(db: DB, j: JobId, ts: TaskState, ats: AttemptState, text: string, p: JobPatch): Result<DB> {
    var r := SettleInflight(db, j, ts, ats, text);
    if r.Err? then r else UpdateJob(r.value, j, p)
  }

  lemma SettledAndUpdated(h: string -> string, db: DB, j: JobId, ts: TaskState, ats: AttemptState, text: string, p: JobPatch)
    requires Inv(h, db) && j in db.jobs && db.jobs[j].phase.Ordinary?
    requires ts in {TaskState.Pending, TaskState.Failed, TaskState.Stopped}
    requires ats in {AttemptState.Cancelled, AttemptState.Failed}
    requires p == JobPatch(state := p.state, error := p.error) && p.state.Some?
    requires p.state.value in JobTransitions(db.jobs[j].state) && !p.state.value.Completed?
    requires p.state.value.Stopped? ==> db.jobs[j].stopRequested
    ensures var r := SettleThenUpdate(db, j, ts, ats, text, p);
      r.Ok? && j in r.value.jobs && AtRest(SliceOf(r.value, j)) && r.value.jobs[j] == p.On(db.jobs[j])
  {
    SettleAccepted(h, db, j, ts, ats, text);
    var db1 := SettleInflight(db, j, ts, ats, text).value;
    assert Inv(h, db1) by { SettleKeeps(h, db, j, ts, ats, text); }
    IdleUpdateAccepted(h, db1, j, p);
    PutJobSlice(db1, j, p.On(db1.jobs[j]));
  }

  const FAILURE := "orchestrator failure: "

  /** The two writes of run_job's handlers: CancelledError with and without a stop request, and any error. */
  ghost function HandlerWrites(db: DB, j: JobId, cancelled: bool, error: string): Result<DB>
    requires j in db.jobs
  {
    if !cancelled then
      SettleThenUpdate(db, j, TaskState.Failed, AttemptState.Failed, FAILURE + error,
                       JobPatch(state := Some(JobState.Failed), error := Some(error)))
    else if db.jobs[j].stopRequested then
      SettleThenUpdate(db, j, TaskState.Stopped, AttemptState.Cancelled, "stopped by user request",
                       JobPatch(state := Some(JobState.Stopped)))
    else
      SettleThenUpdate(db, j, TaskState.Pending, AttemptState.Cancelled, "orchestrator interrupted",
                       JobPatch(state := Some(JobState.Queued)))
  }

  /** When the handlers' last write is along a transition: a cancelled run with a stop request has to find
      the job in STOPPING, and an error must not find it STOPPED. */
  predicate HandlerFits(row: Job, cancelled: bool) {
    if !cancelled then !row.state.Stopped? else row.stopRequested ==> row.state.Stopping? || row.state.Stopped?
  }

  lemma UpdateRefused(db: DB, j: JobId, p: JobPatch)
    requires p.state.Some? && (j in db.jobs ==> p.state.value !in JobTransitions(db.jobs[j].state))
    ensures UpdateJob(db, j, p).Err?
  {
  }

  lemma SettledAndRefused(h: string -> string, db: DB, j: JobId, ts: TaskState, ats: AttemptState, text: string, p: JobPatch)
    requires Inv(h, db) && j in db.jobs && db.jobs[j].phase.Ordinary?
    requires ts in {TaskState.Pending, TaskState.Failed, TaskState.Stopped}
    requires ats in {AttemptState.Cancelled, AttemptState.Failed}
    requires p.state.Some? && p.state.value !in JobTransitions(db.jobs[j].state)
    ensures SettleThenUpdate(db, j, ts, ats, text, p).Err?
  {
    SettleAccepted(h, db, j, ts, ats, text);
    UpdateRefused(SettleInflight(db, j, ts, ats, text).value, j, p);
  }

  lemma StoppedIsAsked(h: string -> string, db: DB, j: JobId)
    requires Inv(h, db) && j in db.jobs && db.jobs[j].phase.Ordinary?
    ensures (db.jobs[j].state.Stopped? ==> db.jobs[j].stopRequested) && !db.jobs[j].state.Completed?
  {
    assert SliceOk(h, SliceOf(db, j));
  }

  /** However run_job ends for ordinary work, its handler's writes are accepted exactly then, and leave the
      job at rest in the state its stop flag asks for. */
  lemma HandlersSettleTheJob(h: string -> string, db: DB, j: JobId, cancelled: bool, error: string)
    requires Inv(h, db) && j in db.jobs && db.jobs[j].phase.Ordinary?
    ensures var r := HandlerWrites(db, j, cancelled, error);
      && (r.Ok? <==> HandlerFits(db.jobs[j], cancelled))
      && (r.Ok? ==> j in r.value.jobs && AtRest(SliceOf(r.value, j))
                    && (if !cancelled then r.value.jobs[j].state.Failed?
                        else if db.jobs[j].stopRequested then r.value.jobs[j].state.Stopped?
                        else r.value.jobs[j].state.Queued?))
  {
    var ts := if !cancelled then TaskState.Failed else if db.jobs[j].stopRequested then TaskState.Stopped else TaskState.Pending;
    var ats := if cancelled then AttemptState.Cancelled else AttemptState.Failed;
    var text := if !cancelled then FAILURE + error
                else if db.jobs[j].stopRequested then "stopped by user request" else "orchestrator interrupted";
    var p := if !cancelled then JobPatch(state := Some(JobState.Failed), error := Some(error))
             else JobPatch(state := Some(if db.jobs[j].stopRequested then JobState.Stopped else JobState.Queued));
    StoppedIsAsked(h, db, j);
    assert HandlerWrites(db, j, cancelled, error) == SettleThenUpdate(db, j, ts, ats, text, p);
    if HandlerFits(db.jobs[j], cancelled) {
      SettledAndUpdated(h, db, j, ts, ats, text, p);
    } else {
      SettledAndRefused(h, db, j, ts, ats, text, p);
    }
  }

  // ---- limits of the guarantees --------------------------------------------------------

  /** The commit-time validator alone admits a task in flight under a PLANNING job; no run reaches one. */
  lemma ValidatorIsWeaker(h: string -> string, row: Job, task: Task)
    requires row.state.Planning? && row.phase.Ordinary? && !row.stopRequested
    requires task.job == "j" && task.state.Running?
    ensures var db := DB(map["j" := row], map["t" := task], map[], map[], []);
      SnapshotOk(db, "j") && !Reachable(h, db)
  {
    var db := DB(map["j" := row], map["t" := task], map[], map[], []);
    SnapshotByRows(db, "j");
    assert TaskOf(db, "t", "j");
    assert "t" in SliceOf(db, "j").tasks;
    assert !SliceOk(h, SliceOf(db, "j"));
    if Reachable(h, db) {
      ReachableInv(h, db);
      assert false;
    }
  }

  /** publish_completed_job takes the summary as an argument, and the store itself does not freeze it:
      whatever can be published can be published under any other summary. */
  lemma SummaryIsTheCallers(h: string -> string, db: DB, j: JobId, p: Publication, summary: string)
    requires j in db.jobs && InAcceptance(db.jobs[j]) && Publish(h, db, j, p).Ok?
    ensures var r := Publish(h, db, j, p.(finalSummary := summary));
      r.Ok? && r.value.jobs == Publish(h, db, j, p).value.jobs[j := PublishedRow(db.jobs[j], p).(finalSummary := summary)]
  {
    var q := p.(finalSummary := summary);
    var x := PublishedStore(db, j, p);
    var y := PublishedStore(db, j, q);
    assert SnapshotOk(x, j) && Publish(h, db, j, p) == Ok(x);
    SnapshotByRows(x, j);
    SnapshotByRows(y, j);
  }

  ghost function PublishedStore(db: DB, j: JobId, p: Publication): DB
    requires j in db.jobs && j in db.dossiers
  {
    db.(jobs := db.jobs[j := PublishedRow(db.jobs[j], p)],
        dossiers := db.dossiers[j := db.dossiers[j].(published := true)],
        events := db.events + PublicationEvents(j, db.jobs[j], p))
  }
}
