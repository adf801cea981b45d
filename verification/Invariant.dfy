/** The strengthened invariant of the durable store, and how every write advances it. */
module Invariant {
  import opened Model
  import opened StateMachine
  import opened Store

  // ---- the rows of one job -------------------------------------------------------------

  /** A job with the rows that belong to it. */
  datatype Slice = Slice(job: Job, tasks: map<TaskId, Task>, attempts: map<AttemptId, Attempt>,
                         dossier: Option<Dossier>)

  function TasksOf(db: DB, j: JobId): map<TaskId, Task> {
    map t | t in db.tasks && TaskOf(db, t, j) :: db.tasks[t]
  }

  function AttemptsOf(db: DB, j: JobId): map<AttemptId, Attempt> {
    map a | a in db.attempts && db.attempts[a].job == j :: db.attempts[a]
  }

  ghost function DossierOf(db: DB, j: JobId): Option<Dossier> {
    if j in db.dossiers then Some(db.dossiers[j]) else None
  }

  ghost function SliceOf(db: DB, j: JobId): Slice
    requires j in db.jobs
  {
    Slice(db.jobs[j], TasksOf(db, j), AttemptsOf(db, j), DossierOf(db, j))
  }

  /** Every row has an existing job. */
  ghost predicate Owned(db: DB) {
    && (forall t <- db.tasks :: db.tasks[t].job in db.jobs)
    && (forall a <- db.attempts :: db.attempts[a].job in db.jobs)
    && (forall j <- db.dossiers :: j in db.jobs)
    && (forall i :: 0 <= i < |db.events| ==> db.events[i].job in db.jobs)
  }

  // ---- the task graph of one job -------------------------------------------------------

  ghost predicate JobFits(job: Job) {
    && (job.state.Stopped? ==> job.stopRequested)
    && (job.state.Completed? ==> !job.stopRequested)
    && (job.phase.Accepted? || job.phase.Applying? ==> job.state.Running? || job.state.Stopping?)
    && (job.phase.Published? <==> job.state.Completed?)
  }

  /** Stronger than the snapshot validator: a PLANNING job has no task in flight either. */
  ghost predicate TaskFits(job: Job, s: TaskState) {
    && (Inflight(s) ==> job.state.Running? || job.state.Stopping?)
    && (!job.phase.Ordinary? ==> s.Completed?)
  }

  ghost predicate AttemptFits(job: Job, owner: TaskState) {
    && (job.state.Running? || job.state.Stopping?)
    && job.phase.Ordinary?
    && Inflight(owner)
  }

  ghost predicate TasksFit(s: Slice) {
    forall t <- s.tasks :: TaskFits(s.job, s.tasks[t].state)
  }

  ghost predicate AttemptsFit(s: Slice) {
    forall a <- s.attempts ::
      && s.attempts[a].task in s.tasks
      && (s.attempts[a].state.Running? ==> AttemptFits(s.job, s.tasks[s.attempts[a].task].state))
  }

  /** UNIQUE(job_id, logical_id). */
  ghost predicate LogicalIdsUnique(tasks: map<TaskId, Task>) {
    forall t, u :: t in tasks && u in tasks && tasks[t].logicalId == tasks[u].logicalId ==> t == u
  }

  /** UNIQUE(task_id, number), and at most one running attempt a task. */
  ghost predicate AttemptsDistinct(attempts: map<AttemptId, Attempt>) {
    forall a, b :: a in attempts && b in attempts && attempts[a].task == attempts[b].task && a != b ==>
      attempts[a].number != attempts[b].number && !(attempts[a].state.Running? && attempts[b].state.Running?)
  }

  // ---- the acceptance journal of one job -----------------------------------------------

  ghost predicate DossierOk(h: string -> string, d: Dossier) {
    d.schemaVersion >= 1 && DigestMatches(h, d.content, d.sha)
  }

  ghost predicate OutcomeFits(job: Job) {
    match job.phase
    case Ordinary => job.acceptedCommit == "" && job.intent.NotRequested? && job.outcome.Unset?
    case Accepted => job.acceptedCommit != "" && job.outcome.Unset?
    case Applying => job.acceptedCommit != "" && job.intent.Requested? && job.outcome.Unset?
    case Published =>
      && job.acceptedCommit != ""
      && (job.intent.Requested? ==> job.outcome.Applied? || job.outcome.Skipped?)
      && (job.intent.NotRequested? ==> job.outcome.NotApplied?)
  }

  ghost predicate JournalOk(h: string -> string, job: Job, dossier: Option<Dossier>) {
    && OutcomeFits(job)
    && (!job.phase.Ordinary? ==> dossier.Some?)
    && (dossier.Some? ==>
          DossierOk(h, dossier.value) && (dossier.value.published <==> job.phase.Published?))
  }

  ghost predicate SliceOk(h: string -> string, s: Slice) {
    && JobFits(s.job) && TasksFit(s) && AttemptsFit(s)
    && LogicalIdsUnique(s.tasks) && AttemptsDistinct(s.attempts)
    && JournalOk(h, s.job, s.dossier)
  }

  // ---- the ledger of one job -----------------------------------------------------------

  datatype Tag = TAccepted | TApplyStarted | TDossier | TApplied | TSkipped | TCompleted | TOther

  ghost function TagOf(k: EventKind): Tag {
    match k
    case JobAccepted(_, _, _) => TAccepted
    case ApplyStarted(_) => TApplyStarted
    case DossierCreated(_, _, _) => TDossier
    case JobApplied(_, _) => TApplied
    case ApplySkipped(_) => TSkipped
    case JobCompleted(_, _, _, _, _) => TCompleted
    case Other(_, _) => TOther
  }

  ghost function Hit(e: Event, j: JobId, tag: Tag): nat {
    if e.job == j && TagOf(e.kind) == tag then 1 else 0
  }

  ghost function Count(es: seq<Event>, j: JobId, tag: Tag): nat {
    if es == [] then 0 else Count(es[..|es| - 1], j, tag) + Hit(es[|es| - 1], j, tag)
  }

  /** How many entries of a kind the ledger of a job must hold. */
  ghost function Due(job: Job, tag: Tag): nat {
    var applies := job.intent.Requested? && (job.phase.Applying? || job.phase.Published?);
    match tag
    case TAccepted => if job.phase.Ordinary? then 0 else 1
    case TApplyStarted => if applies then 1 else 0
    case TDossier => if job.phase.Published? then 1 else 0
    case TCompleted => if job.phase.Published? then 1 else 0
    case TApplied => if job.outcome.Applied? then 1 else 0
    case TSkipped => if job.outcome.Skipped? then 1 else 0
    case TOther => 0
  }

  /** The payload of a journal entry agrees with the rows. */
  ghost predicate Agrees(db: DB, e: Event)
    requires e.job in db.jobs
  {
    var job := db.jobs[e.job];
    match e.kind
    case JobAccepted(c, i, sha) =>
      && !job.phase.Ordinary? && c == job.acceptedCommit && i == job.intent
      && e.job in db.dossiers && sha == db.dossiers[e.job].sha
    case ApplyStarted(c) => (job.phase.Applying? || job.phase.Published?) && c == job.acceptedCommit
    case DossierCreated(sha, v, c) =>
      && job.phase.Published? && c == job.acceptedCommit
      && e.job in db.dossiers && sha == db.dossiers[e.job].sha && v == db.dossiers[e.job].schemaVersion
    case JobApplied(b, c) => job.phase.Published? && b == job.baseBranch && c == job.acceptedCommit
    case ApplySkipped(reason) => job.phase.Published? && reason == job.reason
    case JobCompleted(summary, b, sha, c, o) =>
      && job.phase.Published? && summary == job.finalSummary && b == job.integrationBranch
      && c == job.acceptedCommit && o == job.outcome
      && e.job in db.dossiers && sha == db.dossiers[e.job].sha
    case Other(_, _) => true
  }

  ghost predicate LedgerOk(db: DB, j: JobId)
    requires j in db.jobs
  {
    && (forall tag :: tag != TOther ==> Count(db.events, j, tag) == Due(db.jobs[j], tag))
    && (forall i :: 0 <= i < |db.events| && db.events[i].job == j ==> Agrees(db, db.events[i]))
  }

  ghost predicate Inv(h: string -> string, db: DB) {
    && Owned(db)
    && (forall j {:trigger SliceOk(h, SliceOf(db, j))} | j in db.jobs :: SliceOk(h, SliceOf(db, j)))
    && (forall j {:trigger LedgerOk(db, j)} | j in db.jobs :: LedgerOk(db, j))
  }

  // ---- what no write undoes ------------------------------------------------------------

  ghost function Rank(p: Phase): nat {
    match p case Ordinary => 0 case Accepted => 1 case Applying => 2 case Published => 3
  }

  ghost predicate JobAdvances(x: Job, y: Job) {
    && y.repo == x.repo && y.goal == x.goal && y.baseBranch == x.baseBranch && y.baseCommit == x.baseCommit
    && y.integrationBranch == x.integrationBranch
    && Rank(x.phase) <= Rank(y.phase)
    && (!x.phase.Ordinary? ==>
          && y.acceptedCommit == x.acceptedCommit && y.intent == x.intent
          && y.autoApply == x.autoApply && y.integrationPath == x.integrationPath)
    && (!x.phase.Ordinary? && (y.phase.Published? ==> x.phase.Published?) ==> y.finalSummary == x.finalSummary)
    && (x.phase.Published? ==> y == x)
  }

  predicate TaskAdvances(x: Task, y: Task) {
    && y.job == x.job && y.seqNo == x.seqNo && y.logicalId == x.logicalId && y.title == x.title
    && y.description == x.description && y.dependencies == x.dependencies && y.acceptance == x.acceptance
    && (x.state.Completed? ==> y.state.Completed?)
  }

  ghost predicate AttemptAdvances(x: Attempt, y: Attempt) {
    && y.job == x.job && y.task == x.task && y.number == x.number && y.agent == x.agent
    && y.worktree == x.worktree && y.branch == x.branch && y.logPath == x.logPath
    && (!x.state.Running? ==> y == x)
  }

  ghost predicate DossierAdvances(x: Dossier, y: Dossier) {
    y.(published := x.published) == x && (x.published ==> y.published)
  }

  /** Nothing below the row of the job changes: its tasks, its attempts, its dossier's content. */
  ghost predicate Frozen(x: Slice, y: Slice) {
    && y.tasks == x.tasks
    && y.attempts == x.attempts
    && (x.dossier.Some? ==> y.dossier.Some? && DossierAdvances(x.dossier.value, y.dossier.value))
  }

  ghost predicate SliceAdvances(x: Slice, y: Slice) {
    && JobAdvances(x.job, y.job)
    && (forall t <- x.tasks :: t in y.tasks && TaskAdvances(x.tasks[t], y.tasks[t]))
    && (forall a <- x.attempts :: a in y.attempts && AttemptAdvances(x.attempts[a], y.attempts[a]))
    && (!x.job.phase.Ordinary? ==> Frozen(x, y))
  }

  ghost predicate Advances(db: DB, db': DB) {
    && (forall j <- db.jobs :: j in db'.jobs)
    && (forall j {:trigger SliceAdvances(SliceOf(db, j), SliceOf(db', j))} | j in db.jobs ::
          SliceAdvances(SliceOf(db, j), SliceOf(db', j)))
    && db.events <= db'.events
  }

  lemma AdvancesReflexive(x: DB)
    ensures Advances(x, x)
  {
  }

  lemma AdvancesTransitive(x: DB, y: DB, z: DB)
    requires Advances(x, y) && Advances(y, z)
    ensures Advances(x, z)
  {
    forall j | j in x.jobs ensures j in z.jobs && SliceAdvances(SliceOf(x, j), SliceOf(z, j)) {
      assert SliceAdvances(SliceOf(x, j), SliceOf(y, j)) && SliceAdvances(SliceOf(y, j), SliceOf(z, j));
      SliceTransitive(SliceOf(x, j), SliceOf(y, j), SliceOf(z, j));
    }
  }

  lemma SliceTransitive(x: Slice, y: Slice, z: Slice)
    requires SliceAdvances(x, y) && SliceAdvances(y, z)
    ensures SliceAdvances(x, z)
  {
  }

  // ---- the validator -------------------------------------------------------------------

  /** The validator's sets, read as statements about rows. */
  ghost predicate ValidatorAccepts(s: Slice) {
    && JobFits(s.job)
    && (forall t <- s.tasks ::
          && (!s.job.phase.Ordinary? ==> s.tasks[t].state.Completed?)
          && (s.job.state.Queued? || s.job.state.Stopped? || s.job.state.Failed? ==> !Inflight(s.tasks[t].state)))
    && (forall a <- s.attempts :: s.attempts[a].state.Running? && s.attempts[a].task in s.tasks ==>
          AttemptFits(s.job, s.tasks[s.attempts[a].task].state))
  }

  lemma TaskStatesByRows(db: DB, j: JobId)
    requires j in db.jobs
    ensures forall t <- TasksOf(db, j) :: TasksOf(db, j)[t].state in TaskStates(db, j)
    ensures forall x <- TaskStates(db, j) :: exists t <- TasksOf(db, j) :: TasksOf(db, j)[t].state == x
  {
    forall x | x in TaskStates(db, j) ensures exists t <- TasksOf(db, j) :: TasksOf(db, j)[t].state == x {
      var t :| t in db.tasks && TaskOf(db, t, j) && db.tasks[t].state == x;
      assert t in TasksOf(db, j);
    }
  }

  lemma RunningOwnersByRows(db: DB, j: JobId)
    requires j in db.jobs
    ensures forall a <- AttemptsOf(db, j) :: RunningOf(db, a, j) ==>
              db.tasks[db.attempts[a].task].state in RunningOwners(db, j)
    ensures forall o <- RunningOwners(db, j) ::
              exists a <- AttemptsOf(db, j) :: RunningOf(db, a, j) && db.tasks[db.attempts[a].task].state == o
  {
    forall o | o in RunningOwners(db, j)
      ensures exists a <- AttemptsOf(db, j) :: RunningOf(db, a, j) && db.tasks[db.attempts[a].task].state == o
    {
      var a :| a in db.attempts && RunningOf(db, a, j) && db.tasks[db.attempts[a].task].state == o;
      assert a in AttemptsOf(db, j);
    }
  }

  lemma SnapshotByRows(db: DB, j: JobId)
    requires j in db.jobs
    ensures SnapshotOk(db, j) <==> ValidatorAccepts(SliceOf(db, j))
  {
    var s := SliceOf(db, j);
    TaskStatesByRows(db, j);
    RunningOwnersByRows(db, j);
    assert forall a <- s.attempts ::
      RunningOf(db, a, j) <==> s.attempts[a].state.Running? && s.attempts[a].task in s.tasks;
    if SnapshotOk(db, j) {
      assert ValidatorAccepts(s);
    }
    if ValidatorAccepts(s) {
      assert SnapshotOk(db, j);
    }
  }
}
