/** The record-creating writes, the acceptance journal and recovery keep the invariant too;
    hence so does every run of the store. */
module Journal {
  import opened Model
  import opened Store
  import opened Invariant
  import opened Preservation

  // ---- create_job, add_tasks, event ----------------------------------------------------

  lemma NoEntries(es: seq<Event>, j: JobId, tag: Tag)
    requires forall k :: 0 <= k < |es| ==> es[k].job != j
    ensures Count(es, j, tag) == 0
  {
    assert [] + es == es;
    CountForeign([], es, j, tag);
  }

  lemma NewJobRows(db: DB, id: JobId, row: Job, e: Event, db': DB)
    requires Owned(db) && id !in db.jobs && e.job == id
    requires db' == PutJob(db, id, row).(events := db.events + [e])
    ensures Owned(db') && Touches(db, db', id) && SliceOf(db', id) == Slice(row, map[], map[], None)
  {
    forall i | i in db.jobs ensures SliceOf(db', i) == SliceOf(db, i) {
      assert TasksOf(db', i) == TasksOf(db, i) && AttemptsOf(db', i) == AttemptsOf(db, i);
    }
  }

  lemma NewJobLedger(db: DB, id: JobId, row: Job, e: Event, db': DB)
    requires Owned(db) && id !in db.jobs && e.job == id && e.kind.Other? && row.phase.Ordinary? && row.outcome.Unset?
    requires db' == PutJob(db, id, row).(events := db.events + [e])
    ensures LedgerOk(db', id)
  {
    forall tag: Tag | tag != TOther ensures Count(db'.events, id, tag) == Due(row, tag) {
      NoEntries(db.events, id, tag);
      CountAppend(db.events, e, id, tag);
    }
  }

  lemma CreateJobKeeps(h: string -> string, db: DB, id: JobId, repo: string, goal: string, baseBranch: string,
                       baseCommit: Model.Commit, integrationBranch: string, autoApply: bool, payload: string)
    requires Inv(h, db) && CreateJob(db, id, repo, goal, baseBranch, baseCommit, integrationBranch, autoApply, payload).Ok?
    ensures var db' := CreateJob(db, id, repo, goal, baseBranch, baseCommit, integrationBranch, autoApply, payload).value;
      Inv(h, db') && Advances(db, db')
  {
    var row := NewJob(repo, goal, baseBranch, baseCommit, integrationBranch, autoApply);
    var e := Event(id, None, Other("job.created", payload));
    var db' := PutJob(db, id, row).(events := db.events + [e]);
    NewJobRows(db, id, row, e, db');
    NewJobLedger(db, id, row, e, db');
    JournalWrite(h, db, db', id, [e]);
  }

  lemma LogEventKeeps(h: string -> string, db: DB, j: JobId, t: Option<TaskId>, name: string, payload: string)
    requires Inv(h, db) && LogEvent(db, j, t, name, payload).Ok?
    ensures Inv(h, LogEvent(db, j, t, name, payload).value) && Advances(db, LogEvent(db, j, t, name, payload).value)
  {
    var e := Event(j, t, Other(name, payload));
    var db' := db.(events := db.events + [e]);
    SameRows(db, db');
    SliceSelf(SliceOf(db, j));
    LedgerOwnEntry(db, db', j, e);
    JournalWrite(h, db, db', j, [e]);
  }

  lemma SameRows(db: DB, db': DB)
    requires db' == db.(events := db'.events)
    ensures forall i <- db.jobs :: SliceOf(db', i) == SliceOf(db, i)
  {
    forall i | i in db.jobs ensures SliceOf(db', i) == SliceOf(db, i) {
      assert TasksOf(db', i) == TasksOf(db, i) && AttemptsOf(db', i) == AttemptsOf(db, i);
    }
  }

  lemma NewTaskSlice(h: string -> string, x: Slice, t: TaskId, row: Task)
    requires SliceOk(h, x) && t !in x.tasks && row.state.Pending? && x.job.phase.Ordinary?
    requires forall u <- x.tasks :: x.tasks[u].logicalId != row.logicalId
    ensures SliceOk(h, x.(tasks := x.tasks[t := row])) && SliceAdvances(x, x.(tasks := x.tasks[t := row]))
  {
  }

  lemma InsertTaskKeeps(h: string -> string, db: DB, j: JobId, t: TaskId, row: Task)
    requires Inv(h, db) && j in db.jobs && db.jobs[j].phase.Ordinary?
    requires t !in db.tasks && row.job == j && row.state.Pending? && !LogicalIdTaken(db, j, row.logicalId)
    ensures Inv(h, PutTask(db, t, row)) && Advances(db, PutTask(db, t, row))
  {
    PutTaskSlice(db, j, t, row);
    var x := SliceOf(db, j);
    forall u | u in x.tasks ensures x.tasks[u].logicalId != row.logicalId {
      assert TaskOf(db, u, j);
    }
    NewTaskSlice(h, x, t, row);
    QuietWrite(h, db, PutTask(db, t, row), j);
  }

  lemma InsertTasksUnfold(db: DB, j: JobId, start: nat, ids: seq<TaskId>, plan: seq<PlannedTask>, k: nat)
    requires |ids| == |plan| && k < |plan| && InsertTasks(db, j, start, ids, plan, k).Ok?
    ensures ids[k] !in db.tasks && !LogicalIdTaken(db, j, plan[k].logicalId)
    ensures InsertTasks(db, j, start, ids, plan, k) ==
            InsertTasks(PutTask(db, ids[k], NewTask(j, start + k + 1, plan[k])), j, start, ids, plan, k + 1)
  {
  }

  lemma {:induction false} InsertTasksKeeps(h: string -> string, db: DB, j: JobId, start: nat, ids: seq<TaskId>,
                                            plan: seq<PlannedTask>, k: nat, db': DB)
    requires |ids| == |plan| && k <= |plan| && Inv(h, db) && j in db.jobs && db.jobs[j].phase.Ordinary?
    requires InsertTasks(db, j, start, ids, plan, k) == Ok(db')
    ensures Inv(h, db') && Advances(db, db') && db'.jobs == db.jobs
    decreases |plan| - k
  {
    if k == |plan| {
      AdvancesReflexive(db);
    } else {
      var db1 := PutTask(db, ids[k], NewTask(j, start + k + 1, plan[k]));
      InsertTasksUnfold(db, j, start, ids, plan, k);
      InsertTaskKeeps(h, db, j, ids[k], NewTask(j, start + k + 1, plan[k]));
      InsertTasksKeeps(h, db1, j, start, ids, plan, k + 1, db');
      AdvancesTransitive(db, db1, db');
    }
  }

  lemma AddTasksKeeps(h: string -> string, db: DB, j: JobId, ids: seq<TaskId>, plan: seq<PlannedTask>)
    requires |ids| == |plan| && Inv(h, db) && AddTasks(db, j, ids, plan).Ok?
    ensures Inv(h, AddTasks(db, j, ids, plan).value) && Advances(db, AddTasks(db, j, ids, plan).value)
  {
    InsertTasksKeeps(h, db, j, MaxSeq(db, j), ids, plan, 0, AddTasks(db, j, ids, plan).value);
  }

  // ---- the acceptance journal ----------------------------------------------------------

  function PutDossier(db: DB, j: JobId, d: Dossier): DB {
    db.(dossiers := db.dossiers[j := d])
  }

  lemma PutDossierSlice(db: DB, j: JobId, d: Dossier)
    requires j in db.jobs && Owned(db)
    ensures Owned(PutDossier(db, j, d)) && Touches(db, PutDossier(db, j, d), j)
    ensures SliceOf(PutDossier(db, j, d), j) == SliceOf(db, j).(dossier := Some(d))
  {
    var db' := PutDossier(db, j, d);
    forall i | i in db.jobs ensures TasksOf(db', i) == TasksOf(db, i) && AttemptsOf(db', i) == AttemptsOf(db, i) {}
  }

  lemma StagedSlice(h: string -> string, x: Slice, d: Dossier)
    requires SliceOk(h, x) && x.job.phase.Ordinary? && DossierOk(h, d) && !d.published
    ensures SliceOk(h, x.(dossier := Some(d))) && SliceAdvances(x, x.(dossier := Some(d)))
  {
  }

  lemma StageDossierKeeps(h: string -> string, db: DB, j: JobId, v: int, sha: string, content: string)
    requires Inv(h, db) && StageDossier(h, db, j, v, sha, content).Ok?
    ensures Inv(h, StageDossier(h, db, j, v, sha, content).value)
    ensures Advances(db, StageDossier(h, db, j, v, sha, content).value)
  {
    var d := Dossier(v, sha, content, false);
    PutDossierSlice(db, j, d);
    StagedSlice(h, SliceOf(db, j), d);
    QuietWrite(h, db, PutDossier(db, j, d), j);
  }

  /** Three rows of one job written together: the row, the dossier and the ledger. */
  lemma PutJobAndDossier(db: DB, db': DB, j: JobId, row: Job, d: Dossier, more: seq<Event>)
    requires j in db.jobs && Owned(db)
    requires db' == PutDossier(PutJob(db, j, row), j, d).(events := db.events + more)
    requires forall k :: 0 <= k < |more| ==> more[k].job == j
    ensures Owned(db') && Touches(db, db', j)
    ensures SliceOf(db', j) == SliceOf(db, j).(job := row, dossier := Some(d))
  {
    var db1 := PutJob(db, j, row);
    var db2 := PutDossier(db1, j, d);
    PutJobSlice(db, j, row);
    PutDossierSlice(db1, j, d);
    TouchesTransitive(db, db1, db2, j);
    SameRows(db2, db');
  }

  lemma AcceptedSlice(h: string -> string, x: Slice, acc: Acceptance, y: Slice)
    requires SliceOk(h, x) && x.job.phase.Ordinary? && acc.intent.Some? && acc.commit != ""
    requires acc.schemaVersion >= 1 && DigestMatches(h, acc.content, acc.sha)
    requires y == x.(job := AcceptedRow(x.job, acc),
                     dossier := Some(Dossier(acc.schemaVersion, acc.sha, acc.content, false)))
    requires ValidatorAccepts(y)
    ensures SliceOk(h, y) && SliceAdvances(x, y)
  {
  }

  lemma PrepareKeeps(h: string -> string, db: DB, j: JobId, acc: Acceptance)
    requires Inv(h, db) && PrepareAccepted(h, db, j, acc).Ok?
    ensures Inv(h, PrepareAccepted(h, db, j, acc).value) && Advances(db, PrepareAccepted(h, db, j, acc).value)
  {
    var db' := PrepareAccepted(h, db, j, acc).value;
    if !db.jobs[j].phase.Ordinary? {
      AdvancesReflexive(db);
    } else {
      var e := Event(j, None, JobAccepted(acc.commit, acc.intent.value, acc.sha));
      var row, d := AcceptedRow(db.jobs[j], acc), Dossier(acc.schemaVersion, acc.sha, acc.content, false);
      PutJobAndDossier(db, db', j, row, d, [e]);
      SnapshotByRows(db', j);
      AcceptedSlice(h, SliceOf(db, j), acc, SliceOf(db', j));
      assert OutcomeFits(db.jobs[j]) by { assert SliceOk(h, SliceOf(db, j)); }
      LedgerOwnEntry(db, db', j, e);
      JournalWrite(h, db, db', j, [e]);
    }
  }

  lemma ApplyingSlice(h: string -> string, x: Slice)
    requires SliceOk(h, x) && x.job.phase.Accepted? && x.job.intent.Requested?
    ensures SliceOk(h, x.(job := x.job.(phase := Applying))) && SliceAdvances(x, x.(job := x.job.(phase := Applying)))
  {
  }

  lemma MarkApplyKeeps(h: string -> string, db: DB, j: JobId, commit: Model.Commit)
    requires Inv(h, db) && MarkApplyStarted(db, j, commit).Ok?
    ensures Inv(h, MarkApplyStarted(db, j, commit).value) && Advances(db, MarkApplyStarted(db, j, commit).value)
  {
    var db' := MarkApplyStarted(db, j, commit).value;
    if db.jobs[j].phase.Applying? {
      AdvancesReflexive(db);
    } else {
      StartedKeeps(h, db, j, db');
    }
  }

  lemma StartedKeeps(h: string -> string, db: DB, j: JobId, db': DB)
    requires Inv(h, db) && j in db.jobs && db.jobs[j].phase.Accepted? && db.jobs[j].intent.Requested?
    requires db' == Log(PutJob(db, j, db.jobs[j].(phase := Applying)), j, ApplyStarted(db.jobs[j].acceptedCommit))
    ensures Inv(h, db') && Advances(db, db')
  {
    var e := Event(j, None, ApplyStarted(db.jobs[j].acceptedCommit));
    var row := db.jobs[j].(phase := Applying);
    PutJobSlice(db, j, row);
    SameRows(PutJob(db, j, row), db');
    ApplyingSlice(h, SliceOf(db, j));
    assert OutcomeFits(db.jobs[j]) by { assert SliceOk(h, SliceOf(db, j)); }
    LedgerOwnEntry(db, db', j, e);
    JournalWrite(h, db, db', j, [e]);
  }

  lemma PublishedSlice(h: string -> string, x: Slice, p: Publication, y: Slice)
    requires SliceOk(h, x) && x.dossier.Some? && (x.job.phase.Accepted? || x.job.phase.Applying?)
    requires y == x.(job := PublishedRow(x.job, p), dossier := Some(x.dossier.value.(published := true)))
    requires x.job.intent.NotRequested? ==> p.outcome.NotApplied?
    requires x.job.intent.Requested? ==> p.outcome.Applied? || p.outcome.Skipped?
    ensures SliceOk(h, y) && SliceAdvances(x, y)
  {
  }

  lemma {:induction false} CountConcat(es: seq<Event>, more: seq<Event>, j: JobId, tag: Tag)
    ensures Count(es + more, j, tag) == Count(es, j, tag) + Count(more, j, tag)
  {
    if more == [] {
      assert es + more == es;
    } else {
      assert (es + more)[..|es + more| - 1] == es + more[..|more| - 1];
      CountConcat(es, more[..|more| - 1], j, tag);
    }
  }

  lemma CountOne(e: Event, j: JobId, tag: Tag)
    ensures Count([e], j, tag) == Hit(e, j, tag)
  {
    assert [e][..0] == [];
  }

  lemma OutcomeCounts(j: JobId, job: Job, p: Publication, tag: Tag)
    ensures Count(OutcomeEvents(j, job, p), j, tag) ==
            if (tag.TApplied? && p.outcome.Applied?) || (tag.TSkipped? && p.outcome.Skipped?) then 1 else 0
  {
    if p.outcome.Applied? {
      CountOne(Event(j, None, JobApplied(job.baseBranch, job.acceptedCommit)), j, tag);
    } else if p.outcome.Skipped? {
      CountOne(Event(j, None, ApplySkipped(Tail(p.reason, 4000))), j, tag);
    }
  }

  /** Each published kind once, whatever the outcome. */
  lemma PublicationCounts(es: seq<Event>, j: JobId, job: Job, p: Publication, tag: Tag)
    ensures Count(es + PublicationEvents(j, job, p), j, tag) == Count(es, j, tag)
      + (if tag.TDossier? || tag.TCompleted? || (tag.TApplied? && p.outcome.Applied?)
            || (tag.TSkipped? && p.outcome.Skipped?) then 1 else 0)
  {
    var d, o, c := DossierEvent(j, job, p), OutcomeEvents(j, job, p), CompletedEvent(j, job, p);
    CountConcat(es, PublicationEvents(j, job, p), j, tag);
    CountConcat([d] + o, [c], j, tag);
    CountConcat([d], o, j, tag);
    CountOne(d, j, tag);
    CountOne(c, j, tag);
    OutcomeCounts(j, job, p, tag);
  }

  lemma PublishKeeps(h: string -> string, db: DB, j: JobId, p: Publication)
    requires Inv(h, db) && Publish(h, db, j, p).Ok?
    ensures Inv(h, Publish(h, db, j, p).value) && Advances(db, Publish(h, db, j, p).value)
  {
    var db' := Publish(h, db, j, p).value;
    if db.jobs[j].state.Completed? {
      AdvancesReflexive(db);
    } else {
      var more := PublicationEvents(j, db.jobs[j], p);
      PutJobAndDossier(db, db', j, PublishedRow(db.jobs[j], p), db.dossiers[j].(published := true), more);
      PublishedSlice(h, SliceOf(db, j), p, SliceOf(db', j));
      assert OutcomeFits(db.jobs[j]) by { assert SliceOk(h, SliceOf(db, j)); }
      PublishedLedger(db, db', j, p, more);
      JournalWrite(h, db, db', j, more);
    }
  }

  lemma PublishedLedger(db: DB, db': DB, j: JobId, p: Publication, more: seq<Event>)
    requires j in db.jobs && j in db.dossiers && LedgerOk(db, j) && OutcomeFits(db.jobs[j]) && !p.outcome.Unset?
    requires db.jobs[j].phase.Accepted? || db.jobs[j].phase.Applying?
    requires db.jobs[j].phase.Applying? <==> db.jobs[j].intent.Requested?
    requires p.sha == db.dossiers[j].sha && p.schemaVersion == db.dossiers[j].schemaVersion
    requires more == PublicationEvents(j, db.jobs[j], p) && db'.events == db.events + more
    requires j in db'.jobs && db'.jobs[j] == PublishedRow(db.jobs[j], p)
    requires j in db'.dossiers && db'.dossiers[j] == db.dossiers[j].(published := true)
    ensures LedgerOk(db', j)
  {
    forall tag: Tag | tag != TOther ensures Count(db'.events, j, tag) == Due(db'.jobs[j], tag) {
      assert Count(db.events, j, tag) == Due(db.jobs[j], tag);
      PublicationCounts(db.events, j, db.jobs[j], p, tag);
    }
    assert forall k :: 0 <= k < |more| ==> more[k].job == j && Agrees(db', more[k]);
  }
}
