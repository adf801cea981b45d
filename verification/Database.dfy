/** The store as the program keeps it: tables updated in place, each public method one transaction
    that commits or rolls back. Every method is proved to do what its function in Store.dfy says. */
module DatabaseClass {
  import opened Model
  import opened StateMachine
  import opened Store

  lemma MaxOfUnique(s: set<nat>, m: nat)
    requires forall x <- s :: x <= m
    requires m == 0 || m in s
    ensures MaxOf(s) == m
  {
  }

  /** COMMIT with the state the function gives, or ROLLBACK to the state before. */
  predicate Does(before: DB, after: DB, spec: Result<DB>, r: Result<()>) {
    match spec
    case Ok(value) => r == Ok(()) && after == value
    case Err(e) => r == Err(e) && after == before
  }

  /** The three updates of recovery concern different jobs. */
  lemma RowByRow(db: DB, first: map<JobId, Job>, second: map<JobId, Job>, third: map<JobId, Job>)
    requires first == map j | j in db.jobs ::
               if j in AcceptedIds(db) then db.jobs[j].(stopRequested := false, error := "") else db.jobs[j]
    requires second == map j | j in first ::
               if j in ActiveIds(db) then first[j].(state := JobState.Queued, stopRequested := false) else first[j]
    requires third == map j | j in second ::
               if j in StoppedIds(db) then second[j].(state := JobState.Stopped, stopRequested := true) else second[j]
    ensures third == map j | j in db.jobs :: RecoveredJob(db, j)
  {
  }

  /** What the updates do to tasks and attempts does not depend on the job rows. */
  lemma Stages(db: DB, first: DB, second: DB, third: DB)
    requires first == db.(jobs := first.jobs)
    requires second == Interrupted(first, ActiveIds(db), TaskState.Pending, RESTARTED).(jobs := second.jobs)
    requires third == Interrupted(second, StoppedIds(db), TaskState.Stopped, STOPPED).(jobs := third.jobs)
    requires third.jobs == map j | j in db.jobs :: RecoveredJob(db, j)
    ensures third == RecoveredRows(db)
  {
  }

  /** One event of this name for each of the jobs, in any order. */
  predicate LoggedFor(es: seq<Event>, js: set<JobId>, name: string) {
    && |es| == |js| && (forall i :: 0 <= i < |es| ==> es[i].job in js && es[i] == Event(es[i].job, None, Other(name, "{}")))
    && (forall i, k :: 0 <= i < k < |es| ==> es[i].job != es[k].job)
  }

  lemma LoggedOneMore(es: seq<Event>, js: set<JobId>, name: string, j: JobId)
    requires LoggedFor(es, js, name) && j !in js
    ensures LoggedFor(es + [Event(j, None, Other(name, "{}"))], js + {j}, name)
  {
  }

  ghost predicate RecoveryLogged(es: seq<Event>, accepted: set<JobId>, active: set<JobId>, stopped: set<JobId>) {
    exists x, y, z :: es == x + y + z && LoggedFor(x, accepted, "job.recovered_acceptance")
                      && LoggedFor(y, active, "job.recovered") && LoggedFor(z, stopped, "job.recovered_stopped")
  }

  class Database {
    const sha256: string -> string

    var jobs: map<JobId, Job>
    var tasks: map<TaskId, Task>
    var attempts: map<AttemptId, Attempt>
    var dossiers: map<JobId, Dossier>
    var events: seq<Event>

    constructor (sha256: string -> string)
      ensures View() == EmptyDB && this.sha256 == sha256
    {
      this.sha256 := sha256;
      jobs, tasks, attempts, dossiers, events := map[], map[], map[], map[], [];
    }

    function View(): DB
      reads this
    {
      DB(jobs, tasks, attempts, dossiers, events)
    }

    // ---- records -----------------------------------------------------------------------

    method CreateJob(id: JobId, repo: string, goal: string, baseBranch: string, baseCommit: Model.Commit,
                     integrationBranch: string, autoApply: bool, payload: string) returns (r: Result<()>)
      modifies this
      ensures Does(old(View()), View(), Store.CreateJob(old(View()), id, repo, goal, baseBranch, baseCommit, integrationBranch,
                                   autoApply, payload), r)
    {
      if id in jobs { return Err(IntegrityError); }
      var savedJobs, savedEvents := jobs, events;
      jobs := jobs[id := NewJob(repo, goal, baseBranch, baseCommit, integrationBranch, autoApply)];
      events := events + [Event(id, None, Other("job.created", payload))];
      if !SnapshotOk(View(), id) {
        jobs, events := savedJobs, savedEvents;
        return Err(StateTransitionError);
      }
      return Ok(());
    }

    /** SELECT COALESCE(MAX(seq), 0). */
    method LastSeq(j: JobId) returns (m: nat)
      ensures m == MaxSeq(View(), j)
    {
      m := 0;
      var todo := tasks.Keys;
      while todo != {}
        invariant todo <= tasks.Keys
        invariant forall t <- tasks :: t !in todo && TaskOf(View(), t, j) ==> tasks[t].seqNo <= m
        invariant m == 0 || exists t <- tasks :: TaskOf(View(), t, j) && tasks[t].seqNo == m
        decreases todo
      {
        var t :| t in todo;
        if TaskOf(View(), t, j) && tasks[t].seqNo > m { m := tasks[t].seqNo; }
        todo := todo - {t};
      }
      MaxOfUnique(set t | t in tasks && TaskOf(View(), t, j) :: tasks[t].seqNo, m);
    }

    method AddTasks(j: JobId, ids: seq<TaskId>, plan: seq<PlannedTask>) returns (r: Result<()>)
      requires |ids| == |plan|
      modifies this
      ensures Does(old(View()), View(), Store.AddTasks(old(View()), j, ids, plan), r)
    {
      if j !in jobs { return Err(KeyError); }
      if !jobs[j].state.Queued? && !jobs[j].state.Planning? { return Err(StateTransitionError); }
      if !jobs[j].phase.Ordinary? { return Err(StateTransitionError); }
      var start := LastSeq(j);
      var saved := tasks;
      var k := 0;
      while k < |plan|
        invariant 0 <= k <= |plan|
        invariant jobs == old(jobs) && attempts == old(attempts) && dossiers == old(dossiers) && events == old(events)
        invariant InsertTasks(old(View()), j, start, ids, plan, 0) == InsertTasks(View(), j, start, ids, plan, k)
      {
        if ids[k] in tasks || LogicalIdTaken(View(), j, plan[k].logicalId) {
          tasks := saved;
          return Err(IntegrityError);
        }
        tasks := tasks[ids[k] := NewTask(j, start + k + 1, plan[k])];
        k := k + 1;
      }
      if !SnapshotOk(View(), j) {
        tasks := saved;
        return Err(StateTransitionError);
      }
      return Ok(());
    }

    method LogEvent(j: JobId, t: Option<TaskId>, name: string, payload: string) returns (r: Result<()>)
      modifies this`events
      ensures Does(old(View()), View(), Store.LogEvent(old(View()), j, t, name, payload), r)
    {
      if j !in jobs { return Err(IntegrityError); }
      events := events + [Event(j, t, Other(name, payload))];
      return Ok(());
    }

    /** A row with the least seq of those left. */
    method FirstBySeq(left: set<TaskId>) returns (first: TaskId)
      requires left != {} && left <= tasks.Keys
      ensures first in left && forall t <- left :: tasks[first].seqNo <= tasks[t].seqNo
    {
      first :| first in left;
      var todo := left;
      while todo != {}
        invariant first in left && todo <= left
        invariant forall t <- left - todo :: tasks[first].seqNo <= tasks[t].seqNo
        decreases todo
      {
        var t :| t in todo;
        if tasks[t].seqNo < tasks[first].seqNo { first := t; }
        todo := todo - {t};
      }
    }

    /** SELECT ... WHERE job_id = j ORDER BY seq. */
    method ListTasks(j: JobId) returns (ids: seq<TaskId>)
      ensures forall t :: t in ids <==> TaskOf(View(), t, j)
      ensures forall t <- ids :: t in tasks
      ensures forall i, k :: 0 <= i < k < |ids| ==> ids[i] != ids[k] && tasks[ids[i]].seqNo <= tasks[ids[k]].seqNo
    {
      var left := set t | t in tasks && TaskOf(View(), t, j);
      ids := [];
      while left != {}
        invariant left <= tasks.Keys && forall t <- ids :: t in tasks
        invariant forall t :: t in left || t in ids <==> TaskOf(View(), t, j)
        invariant forall t <- ids :: t !in left && forall u <- left :: tasks[t].seqNo <= tasks[u].seqNo
        invariant forall i, k :: 0 <= i < k < |ids| ==> ids[i] != ids[k] && tasks[ids[i]].seqNo <= tasks[ids[k]].seqNo
        decreases left
      {
        var t := FirstBySeq(left);
        ids := ids + [t];
        left := left - {t};
      }
    }

    // ---- update_job, update_task, start_attempt, finish_attempt ------------------------

    method UpdateJob(j: JobId, p: JobPatch) returns (r: Result<()>)
      modifies this`jobs
      ensures Does(old(View()), View(), Store.UpdateJob(old(View()), j, p), r)
    {
      if p.Empty() { return Ok(()); }
      if j !in jobs { return Err(KeyError); }
      var job := jobs[j];
      if !job.phase.Ordinary? && p.Frozen() { return Err(StateTransitionError); }
      var target := p.state.GetOr(job.state);
      if target !in JobTransitions(job.state) { return Err(StateTransitionError); }
      if target.Completed? && !job.state.Completed? { return Err(StateTransitionError); }
      jobs := jobs[j := p.On(job)];
      if !SnapshotOk(View(), j) {
        jobs := jobs[j := job];
        return Err(StateTransitionError);
      }
      return Ok(());
    }

    /** request_stop: the flag and the state in one write, then its event. */
    method RequestStop(j: JobId) returns (r: Result<()>)
      modifies this`jobs, this`events
      ensures var first := Store.UpdateJob(old(View()), j, STOP);
        Does(old(View()), View(),
             if first.Err? then first else Store.LogEvent(first.value, j, None, "job.stop_requested", "{}"), r)
    {
      r := UpdateJob(j, STOP);
      if r.Err? { return; }
      r := LogEvent(j, None, "job.stop_requested", "{}");
    }

    method UpdateTask(t: TaskId, p: TaskPatch) returns (r: Result<()>)
      modifies this`jobs, this`tasks
      ensures Does(old(View()), View(), Store.UpdateTask(old(View()), t, p), r)
    {
      if p == TaskPatch() { return Ok(()); }
      if t !in tasks { return Err(KeyError); }
      var task := tasks[t];
      var target := p.state.GetOr(task.state);
      if target !in TaskTransitions(task.state) { return Err(StateTransitionError); }
      if task.job !in jobs { return Err(KeyError); }
      var job := jobs[task.job];
      if !job.phase.Ordinary? { return Err(StateTransitionError); }
      var savedJobs, savedTasks := jobs, tasks;
      if Inflight(target) && (job.state.Queued? || job.state.Planning?) {
        jobs := jobs[task.job := job.(state := JobState.Running)];
      } else if target.Completed? && !task.state.Completed? && HasRunningAttempt(View(), t) {
        return Err(StateTransitionError);
      }
      tasks := tasks[t := p.On(task)];
      assert jobs == savedJobs[task.job := Activate(job, target)];
      if !SnapshotOk(View(), task.job) {
        jobs, tasks := savedJobs, savedTasks;
        return Err(StateTransitionError);
      }
      return Ok(());
    }

    method StartAttempt(id: AttemptId, j: JobId, t: TaskId, number: int, agent: string, worktree: string,
                        branch: string, logPath: string) returns (r: Result<()>)
      modifies this`attempts
      ensures Does(old(View()), View(), Store.StartAttempt(old(View()), id, j, t, number, agent, worktree, branch, logPath), r)
    {
      if t !in tasks || tasks[t].job !in jobs { return Err(KeyError); }
      if tasks[t].job != j { return Err(OwnershipError); }
      if !jobs[j].state.Running? || !tasks[t].state.Running? { return Err(StateTransitionError); }
      if !jobs[j].phase.Ordinary? || HasRunningAttempt(View(), t) { return Err(StateTransitionError); }
      if id in attempts || NumberTaken(View(), t, number) { return Err(IntegrityError); }
      var saved := attempts;
      attempts := attempts[id := Attempt(j, t, number, agent, worktree, branch, logPath, AttemptState.Running, None, "")];
      if !SnapshotOk(View(), j) {
        attempts := saved;
        return Err(StateTransitionError);
      }
      return Ok(());
    }

    method FinishAttempt(a: AttemptId, target: AttemptState, returncode: Option<int>, summary: string)
      returns (r: Result<()>)
      modifies this`attempts
      ensures Does(old(View()), View(), Store.FinishAttempt(old(View()), a, target, returncode, summary), r)
    {
      if a !in attempts { return Err(KeyError); }
      var row := attempts[a];
      if !row.state.Running? || target.Running? { return Err(StateTransitionError); }
      if target !in AttemptTransitions(row.state) { return Err(StateTransitionError); }
      attempts := attempts[a := row.(state := target, returncode := returncode, summary := summary)];
      if row.job !in jobs {
        attempts := attempts[a := row];
        return Err(KeyError);
      }
      if !SnapshotOk(View(), row.job) {
        attempts := attempts[a := row];
        return Err(StateTransitionError);
      }
      return Ok(());
    }

    // ---- acceptance journal ------------------------------------------------------------

    method StageDossier(j: JobId, schemaVersion: int, sha: string, content: string) returns (r: Result<()>)
      modifies this`dossiers
      ensures Does(old(View()), View(), Store.StageDossier(sha256, old(View()), j, schemaVersion, sha, content), r)
    {
      if schemaVersion < 1 { return Err(ValueError); }
      if !DigestMatches(sha256, content, sha) { return Err(StateTransitionError); }
      if j !in jobs { return Err(KeyError); }
      if jobs[j].state.Completed? || !jobs[j].phase.Ordinary? { return Err(StateTransitionError); }
      dossiers := dossiers[j := Dossier(schemaVersion, sha, content, false)];
      return Ok(());
    }

    method PrepareAcceptedJob(j: JobId, acc: Acceptance) returns (r: Result<()>)
      modifies this`jobs, this`dossiers, this`events
      ensures Does(old(View()), View(), PrepareAccepted(sha256, old(View()), j, acc), r)
    {
      if acc.intent.None? || acc.commit == "" || |acc.commit| > 128 || acc.schemaVersion < 1 {
        return Err(ValueError);
      }
      if !DigestMatches(sha256, acc.content, acc.sha) { return Err(StateTransitionError); }
      if j !in jobs { return Err(KeyError); }
      var job := jobs[j];
      if job.phase.Accepted? || job.phase.Applying? {
        if SameAcceptance(View(), j, acc) { return Ok(()); }
        return Err(StateTransitionError);
      }
      if !job.phase.Ordinary? { return Err(StateTransitionError); }
      if !job.state.Running? && !job.state.Stopping? { return Err(StateTransitionError); }
      var savedJobs, savedDossiers, savedEvents := jobs, dossiers, events;
      dossiers := dossiers[j := Dossier(acc.schemaVersion, acc.sha, acc.content, false)];
      jobs := jobs[j := AcceptedRow(job, acc)];
      events := events + [Event(j, None, JobAccepted(acc.commit, acc.intent.value, acc.sha))];
      if !SnapshotOk(View(), j) {
        jobs, dossiers, events := savedJobs, savedDossiers, savedEvents;
        return Err(StateTransitionError);
      }
      return Ok(());
    }

    method MarkApplyStarted(j: JobId, commit: Model.Commit) returns (r: Result<()>)
      modifies this`jobs, this`events
      ensures Does(old(View()), View(), Store.MarkApplyStarted(old(View()), j, commit), r)
    {
      if j !in jobs { return Err(KeyError); }
      var job := jobs[j];
      if job.acceptedCommit != commit || !job.intent.Requested? { return Err(StateTransitionError); }
      if job.phase.Applying? { return Ok(()); }
      if !job.phase.Accepted? { return Err(StateTransitionError); }
      var savedJobs, savedEvents := jobs, events;
      jobs := jobs[j := job.(phase := Applying)];
      events := events + [Event(j, None, ApplyStarted(commit))];
      if !SnapshotOk(View(), j) {
        jobs, events := savedJobs, savedEvents;
        return Err(StateTransitionError);
      }
      return Ok(());
    }

    method LogPublication(j: JobId, job: Job, p: Publication)
      modifies this`events
      ensures events == old(events) + PublicationEvents(j, job, p)
    {
      events := events + [DossierEvent(j, job, p)];
      if p.outcome.Applied? {
        events := events + [Event(j, None, JobApplied(job.baseBranch, job.acceptedCommit))];
      } else if p.outcome.Skipped? {
        events := events + [Event(j, None, ApplySkipped(Tail(p.reason, 4000)))];
      }
      events := events + [CompletedEvent(j, job, p)];
    }

    method PublishCompletedJob(j: JobId, p: Publication) returns (r: Result<()>)
      modifies this`jobs, this`dossiers, this`events
      ensures Does(old(View()), View(), Publish(sha256, old(View()), j, p), r)
    {
      if p.outcome.Unset? { return Err(ValueError); }
      if j !in jobs { return Err(KeyError); }
      if j !in dossiers { return Err(StateTransitionError); }
      var job, d := jobs[j], dossiers[j];
      if d.schemaVersion != p.schemaVersion || d.sha != p.sha { return Err(StateTransitionError); }
      if !DigestMatches(sha256, d.content, p.sha) { return Err(StateTransitionError); }
      if job.state.Completed? {
        if d.published && job.phase.Published? && job.outcome == p.outcome { return Ok(()); }
        return Err(StateTransitionError);
      }
      match job.intent {
        case NotRequested =>
          if !job.phase.Accepted? || !p.outcome.NotApplied? { return Err(StateTransitionError); }
        case Requested =>
          if !job.phase.Applying? || !(p.outcome.Applied? || p.outcome.Skipped?) { return Err(StateTransitionError); }
      }
      if job.acceptedCommit == "" { return Err(StateTransitionError); }
      if JobState.Completed !in JobTransitions(job.state) { return Err(StateTransitionError); }
      if d.published { return Err(StateTransitionError); }
      var savedJobs, savedDossiers, savedEvents := jobs, dossiers, events;
      jobs := jobs[j := PublishedRow(job, p)];
      dossiers := dossiers[j := d.(published := true)];
      LogPublication(j, job, p);
      if !SnapshotOk(View(), j) {
        jobs, dossiers, events := savedJobs, savedDossiers, savedEvents;
        return Err(StateTransitionError);
      }
      return Ok(());
    }

    // ---- recovery ----------------------------------------------------------------------

    method RetryFailedTasks(j: JobId) returns (r: Result<()>)
      modifies this`tasks
      ensures Does(old(View()), View(), Store.RetryFailedTasks(old(View()), j), r)
    {
      if j !in jobs { return Err(KeyError); }
      if !jobs[j].phase.Ordinary? { return Err(StateTransitionError); }
      if jobs[j].state !in {JobState.Failed, JobState.Stopped, JobState.Queued} { return Err(StateTransitionError); }
      var saved := tasks;
      tasks := ResetTasks(View(), j).tasks;
      if !SnapshotOk(View(), j) {
        tasks := saved;
        return Err(StateTransitionError);
      }
      return Ok(());
    }

    method SettleInflight(j: JobId, taskState: TaskState, attemptState: AttemptState, summary: string)
      returns (r: Result<()>)
      modifies this`tasks, this`attempts
      ensures Does(old(View()), View(), Store.SettleInflight(old(View()), j, taskState, attemptState, summary), r)
    {
      if taskState !in {TaskState.Pending, TaskState.Failed, TaskState.Stopped} { return Err(ValueError); }
      if attemptState !in {AttemptState.Cancelled, AttemptState.Failed} { return Err(ValueError); }
      var bounded := Tail(summary, 8000);
      if j !in jobs { return Err(KeyError); }
      if !jobs[j].phase.Ordinary? { return Err(StateTransitionError); }
      var savedTasks, savedAttempts := tasks, attempts;
      attempts := CloseAttempts(View(), {j}, attemptState, bounded).attempts;
      tasks := SettleTasks(View(), {j}, taskState, bounded).tasks;
      if !SnapshotOk(View(), j) {
        tasks, attempts := savedTasks, savedAttempts;
        return Err(StateTransitionError);
      }
      return Ok(());
    }

    /** The transaction of prepare_resume. */
    method ResumeTransaction(j: JobId) returns (r: Result<()>)
      modifies this`jobs, this`tasks, this`attempts
      ensures Does(old(View()), View(), Store.PrepareResume(old(View()), j), r)
    {
      if j !in jobs { return Err(KeyError); }
      var job := jobs[j];
      if !job.phase.Ordinary? { return Err(StateTransitionError); }
      if !job.state.Stopped? && !job.state.Failed? { return Err(StateTransitionError); }
      attempts := CloseAttempts(View(), {j}, AttemptState.Cancelled, "cancelled before explicit resume").attempts;
      tasks := ResetTasks(View(), j).tasks;
      jobs := jobs[j := job.(state := JobState.Queued, stopRequested := false, error := "")];
      if !SnapshotOk(View(), j) { assert false; }  // a reset queued job always passes the validator
      return Ok(());
    }

    /** prepare_resume: the transaction, then its event. */
    method PrepareResume(j: JobId) returns (r: Result<()>)
      modifies this
      ensures var first := Store.PrepareResume(old(View()), j);
        Does(old(View()), View(), if first.Err? then first else Store.LogEvent(first.value, j, None, "job.resumed", "{}"), r)
    {
      r := ResumeTransaction(j);
      if r.Err? { return; }
      r := LogEvent(j, None, "job.resumed", "{}");
    }

    /** One event a job, in the order the rows come. */
    method LogEach(js: set<JobId>, name: string) returns (ghost es: seq<Event>)
      requires js <= jobs.Keys
      modifies this`events
      ensures events == old(events) + es && LoggedFor(es, js, name)
    {
      var todo := js;
      es := [];
      while todo != {}
        invariant todo <= js && events == old(events) + es && LoggedFor(es, js - todo, name)
        decreases todo
      {
        var j :| j in todo;
        var _ := LogEvent(j, None, name, "{}");
        LoggedOneMore(es, js - todo, name, j);
        assert js - (todo - {j}) == (js - todo) + {j};
        es := es + [Event(j, None, Other(name, "{}"))];
        todo := todo - {j};
      }
      assert js - todo == js;
    }

    /** The three UPDATE statements recovery runs for the interrupted jobs of one kind. */
    method InterruptJobs(js: set<JobId>, taskState: TaskState, summary: string, jobState: JobState, stop: bool)
      modifies this`jobs, this`tasks, this`attempts
      ensures View() == Interrupted(old(View()), js, taskState, summary).(jobs := jobs)
      ensures jobs == map j | j in old(jobs) ::
                if j in js then old(jobs[j]).(state := jobState, stopRequested := stop) else old(jobs[j])
    {
      tasks := SettleTasks(View(), js, taskState, "").tasks;
      attempts := CloseAttempts(View(), js, AttemptState.Cancelled, summary).attempts;
      jobs := map j | j in jobs :: if j in js then jobs[j].(state := jobState, stopRequested := stop) else jobs[j];
    }

    method RecoverRows(accepted: set<JobId>, active: set<JobId>, stopped: set<JobId>)
      requires accepted == AcceptedIds(View()) && active == ActiveIds(View()) && stopped == StoppedIds(View())
      modifies this`jobs, this`tasks, this`attempts
      ensures View() == RecoveredRows(old(View()))
    {
      ghost var before := View();
      jobs := map j | j in jobs :: if j in accepted then jobs[j].(stopRequested := false, error := "") else jobs[j];
      ghost var first := View();
      InterruptJobs(active, TaskState.Pending, RESTARTED, JobState.Queued, false);
      ghost var second := View();
      InterruptJobs(stopped, TaskState.Stopped, STOPPED, JobState.Stopped, true);
      RowByRow(before, first.jobs, second.jobs, jobs);
      Stages(before, first, second, View());
    }

    /** The transaction of recover_incomplete. */
    method RecoverTransaction() returns (r: Result<()>)
      modifies this`jobs, this`tasks, this`attempts
      ensures Does(old(View()), View(), Store.RecoverIncomplete(old(View())), r)
    {
      var accepted, active, stopped := AcceptedIds(View()), ActiveIds(View()), StoppedIds(View());
      if RecoveryIllegal(View()) { return Err(StateTransitionError); }
      var savedJobs, savedTasks, savedAttempts := jobs, tasks, attempts;
      RecoverRows(accepted, active, stopped);
      if !AllSnapshotsOk(View(), accepted + active + stopped) {
        jobs, tasks, attempts := savedJobs, savedTasks, savedAttempts;
        return Err(StateTransitionError);
      }
      return Ok(());
    }

    method LogRecovery(accepted: set<JobId>, active: set<JobId>, stopped: set<JobId>) returns (ghost es: seq<Event>)
      requires accepted + active + stopped <= jobs.Keys
      modifies this`events
      ensures events == old(events) + es && RecoveryLogged(es, accepted, active, stopped)
    {
      ghost var first := LogEach(accepted, "job.recovered_acceptance");
      ghost var second := LogEach(active, "job.recovered");
      ghost var third := LogEach(stopped, "job.recovered_stopped");
      es := first + second + third;
    }

    /** recover_incomplete: the transaction, then one event for each job it concerned, by its kind; returns the
        jobs to run again. */
    method RecoverIncomplete() returns (r: Result<set<JobId>>, ghost es: seq<Event>)
      modifies this
      ensures match Store.RecoverIncomplete(old(View()))
        case Ok(after) =>
          && r == Ok(AcceptedIds(old(View())) + ActiveIds(old(View())))
          && View() == after.(events := after.events + es)
          && RecoveryLogged(es, AcceptedIds(old(View())), ActiveIds(old(View())), StoppedIds(old(View())))
        case Err(e) => r == Err(e) && View() == old(View())
    {
      var accepted, active, stopped := AcceptedIds(View()), ActiveIds(View()), StoppedIds(View());
      var done := RecoverTransaction();
      if done.Err? { return Err(done.error), []; }
      ghost var after := View();
      assert Store.RecoverIncomplete(old(View())) == Ok(after);
      es := LogRecovery(accepted, active, stopped);
      return Ok(accepted + active), es;
    }
  }
}
