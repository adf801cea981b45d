/** Recovery after a daemon restart: it never raises, it leaves every interrupted job at rest,
    it does not touch accepted work below the job row, and repeating it changes nothing. */
module Recovery {
  import opened Model
  import opened StateMachine
  import opened Store
  import opened Invariant
  import opened Preservation

  // ---- the slices after recovery -------------------------------------------------------

  /** What recovery makes of the rows of one job. */
  ghost function Recovered(db: DB, j: JobId): Slice
    requires j in db.jobs
  {
    var x := SliceOf(db, j);
    var y := if j in ActiveIds(db) then Settled(x, TaskState.Pending, AttemptState.Cancelled, RESTARTED, "")
             else if j in StoppedIds(db) then Settled(x, TaskState.Stopped, AttemptState.Cancelled, STOPPED, "")
             else x;
    y.(job := RecoveredJob(db, j))
  }

  lemma InterruptedSlice(db: DB, js: set<JobId>, state: TaskState, summary: string, i: JobId)
    requires i in db.jobs && Owned(db)
    ensures Owned(Interrupted(db, js, state, summary))
    ensures SliceOf(Interrupted(db, js, state, summary), i) ==
            if i in js then Settled(SliceOf(db, i), state, AttemptState.Cancelled, summary, "") else SliceOf(db, i)
  {
    SettleTasksSlice(db, js, state, "", i);
    CloseAttemptsSlice(SettleTasks(db, js, state, ""), js, AttemptState.Cancelled, summary, i);
  }

  lemma BothInterrupted(db: DB, j: JobId, db2: DB)
    requires j in db.jobs && Owned(db)
    requires db2 == Interrupted(Interrupted(db, ActiveIds(db), TaskState.Pending, RESTARTED), StoppedIds(db),
                                TaskState.Stopped, STOPPED)
    ensures Owned(db2) && SliceOf(db2, j) == Recovered(db, j).(job := db.jobs[j])
  {
    InterruptedSlice(db, ActiveIds(db), TaskState.Pending, RESTARTED, j);
    InterruptedSlice(Interrupted(db, ActiveIds(db), TaskState.Pending, RESTARTED), StoppedIds(db),
                     TaskState.Stopped, STOPPED, j);
  }

  lemma JobRowsReplaced(db: DB, db': DB, j: JobId)
    requires j in db.jobs && Owned(db) && db' == db.(jobs := db'.jobs) && db'.jobs.Keys == db.jobs.Keys
    ensures Owned(db') && SliceOf(db', j) == SliceOf(db, j).(job := db'.jobs[j])
  {
    assert TasksOf(db', j) == TasksOf(db, j) && AttemptsOf(db', j) == AttemptsOf(db, j);
  }

  lemma RecoveredSlice(db: DB, j: JobId)
    requires j in db.jobs && Owned(db)
    ensures Owned(RecoveredRows(db)) && SliceOf(RecoveredRows(db), j) == Recovered(db, j)
  {
    var db2 := Interrupted(Interrupted(db, ActiveIds(db), TaskState.Pending, RESTARTED), StoppedIds(db),
                           TaskState.Stopped, STOPPED);
    BothInterrupted(db, j, db2);
    JobRowsReplaced(db2, RecoveredRows(db), j);
  }

  /** Recovery leaves a job at rest: nothing in flight, nothing running. */
  ghost predicate AtRest(s: Slice) {
    NoneRunning(s) && NoneInflight(s)
  }

  lemma RecoveredOk(h: string -> string, db: DB, j: JobId)
    requires Inv(h, db) && j in db.jobs
    ensures SliceOk(h, Recovered(db, j)) && SliceAdvances(SliceOf(db, j), Recovered(db, j))
    ensures j in ActiveIds(db) || j in StoppedIds(db) ==> AtRest(Recovered(db, j))
  {
    var x := SliceOf(db, j);
    assert SliceOk(h, x);
    if j in ActiveIds(db) {
      RestingSlice(h, x, TaskState.Pending, RESTARTED, RecoveredJob(db, j));
    } else if j in StoppedIds(db) {
      RestingSlice(h, x, TaskState.Stopped, STOPPED, RecoveredJob(db, j));
    } else if j in AcceptedIds(db) {
      AcceptedKept(h, x, RecoveredJob(db, j));
    } else {
      SliceSelf(x);
    }
  }

  lemma RestingSlice(h: string -> string, x: Slice, ts: TaskState, summary: string, row: Job)
    requires SliceOk(h, x) && x.job.phase.Ordinary? && !Inflight(ts)
    requires row == x.job.(state := row.state, stopRequested := row.stopRequested)
    requires !row.state.Completed? && (row.state.Stopped? ==> row.stopRequested)
    ensures var y := Settled(x, ts, AttemptState.Cancelled, summary, "").(job := row);
      SliceOk(h, y) && SliceAdvances(x, y) && AtRest(y)
  {
    var y := Settled(x, ts, AttemptState.Cancelled, summary, "");
    SettledBoth(h, x, ts, AttemptState.Cancelled, summary, "");
    IdleJobSlice(h, y, row);
    SliceTransitive(x, y, y.(job := row));
  }

  lemma AcceptedKept(h: string -> string, x: Slice, row: Job)
    requires SliceOk(h, x) && (x.job.phase.Accepted? || x.job.phase.Applying?)
    requires row == x.job.(stopRequested := false, error := "")
    ensures SliceOk(h, x.(job := row)) && SliceAdvances(x, x.(job := row))
  {
  }

  // ---- totality ------------------------------------------------------------------------

  lemma OkSliceAccepted(h: string -> string, s: Slice)
    requires SliceOk(h, s)
    ensures ValidatorAccepts(s)
  {
  }

  lemma RecoveredSnapshot(h: string -> string, db: DB, j: JobId)
    requires Inv(h, db) && j in db.jobs
    ensures SnapshotOk(RecoveredRows(db), j)
  {
    RecoveredSlice(db, j);
    RecoveredOk(h, db, j);
    OkSliceAccepted(h, Recovered(db, j));
    SnapshotByRows(RecoveredRows(db), j);
  }

  lemma RecoveryLegal(h: string -> string, db: DB)
    requires Inv(h, db)
    ensures !RecoveryIllegal(db)
  {
    forall j | j in AcceptedIds(db) ensures db.jobs[j].state.Running? || db.jobs[j].state.Stopping? {
      assert SliceOk(h, SliceOf(db, j));
    }
  }

  /** From every state satisfying the invariant recovery commits. */
  lemma RecoverNeverRaises(h: string -> string, db: DB)
    requires Inv(h, db)
    ensures RecoverIncomplete(db) == Ok(RecoveredRows(db))
  {
    var js := AcceptedIds(db) + ActiveIds(db) + StoppedIds(db);
    assert AllSnapshotsOk(RecoveredRows(db), js) by {
      forall j | j in js ensures j in RecoveredRows(db).jobs && SnapshotOk(RecoveredRows(db), j) {
        RecoveredSnapshot(h, db, j);
      }
    }
    RecoveryLegal(h, db);
  }

  lemma RecoverKeeps(h: string -> string, db: DB)
    requires Inv(h, db)
    ensures Inv(h, RecoveredRows(db)) && Advances(db, RecoveredRows(db))
  {
    var db' := RecoveredRows(db);
    forall j | j in db.jobs
      ensures Owned(db') && SliceOk(h, SliceOf(db', j)) && SliceAdvances(SliceOf(db, j), SliceOf(db', j))
      ensures LedgerOk(db', j)
    {
      RecoveredSlice(db, j);
      RecoveredOk(h, db, j);
      assert LedgerOk(db, j) && SliceOk(h, SliceOf(db, j));
      assert db'.events == db.events + [];
      LedgerKept(db, db', j, []);
    }
    if db.jobs == map[] { assert Owned(db'); }
  }

  // ---- what recovery leaves behind -----------------------------------------------------

  /** Ordinary unfinished jobs end QUEUED or STOPPED and at rest; accepted jobs keep their tasks,
      attempts, dossier and journal; finished jobs keep every row. */
  ghost predicate RecoveryDone(db: DB, db': DB, j: JobId)
    requires j in db.jobs && j in db'.jobs
  {
    var x, y := SliceOf(db, j), SliceOf(db', j);
    && (Terminal(x.job.state) ==> y == x)
    && (!Terminal(x.job.state) && x.job.phase.Ordinary? ==>
          && AtRest(y)
          && y.job == x.job.(state := y.job.state, stopRequested := y.job.stopRequested)
          && (if x.job.stopRequested || x.job.state.Stopping? then y.job.state.Stopped? && y.job.stopRequested
              else y.job.state.Queued? && !y.job.stopRequested))
    && (!Terminal(x.job.state) && !x.job.phase.Ordinary? ==>
          y == x.(job := x.job.(stopRequested := false, error := "")))
  }

  lemma RecoverSettlesEveryJob(h: string -> string, db: DB, j: JobId)
    requires Inv(h, db) && j in db.jobs
    ensures RecoveryDone(db, RecoveredRows(db), j)
  {
    assert SliceOk(h, SliceOf(db, j));
    RecoveredSlice(db, j);
    RecoveredOk(h, db, j);
  }

  /** The jobs handed back to the daemon: the accepted ones and the ones requeued, no other. */
  lemma ReturnedIds(h: string -> string, db: DB, j: JobId)
    requires Inv(h, db) && j in db.jobs
    ensures j in AcceptedIds(db) + ActiveIds(db) <==>
      var y := RecoveredRows(db).jobs[j];
      y.phase.Accepted? || y.phase.Applying? || y.state.Queued?
  {
    assert SliceOk(h, SliceOf(db, j));
  }

  lemma AtRestSettled(s: Slice, ts: TaskState, ats: AttemptState, summary: string, lastError: string)
    requires AtRest(s)
    ensures Settled(s, ts, ats, summary, lastError) == s
  {
    assert CloseIn(s, ats, summary).attempts == s.attempts;
    assert SettledRows(s.tasks, ts, lastError) == s.tasks;
  }

  lemma RecoverTwiceSlice(h: string -> string, db: DB, j: JobId)
    requires Inv(h, db) && j in db.jobs
    ensures Recovered(RecoveredRows(db), j) == SliceOf(RecoveredRows(db), j)
  {
    var db' := RecoveredRows(db);
    var y := SliceOf(db', j);
    assert RecoveryDone(db, db', j) by { RecoverSettlesEveryJob(h, db, j); }
    assert SliceOk(h, SliceOf(db, j));
    assert j !in StoppedIds(db') && (j in ActiveIds(db') ==> AtRest(y)) && RecoveredJob(db', j) == y.job;
    if j in ActiveIds(db') {
      AtRestSettled(y, TaskState.Pending, AttemptState.Cancelled, RESTARTED, "");
    }
  }

  lemma TasksDetermine(db: DB, db': DB)
    requires Owned(db) && Owned(db') && db.jobs.Keys == db'.jobs.Keys
    requires forall j <- db.jobs :: TasksOf(db, j) == TasksOf(db', j)
    ensures db.tasks == db'.tasks
  {
    forall t | t in db.tasks ensures t in db'.tasks && db'.tasks[t] == db.tasks[t] {
      assert t in TasksOf(db, db.tasks[t].job);
    }
    forall t | t in db'.tasks ensures t in db.tasks {
      assert t in TasksOf(db', db'.tasks[t].job);
    }
  }

  lemma AttemptsDetermine(db: DB, db': DB)
    requires Owned(db) && Owned(db') && db.jobs.Keys == db'.jobs.Keys
    requires forall j <- db.jobs :: AttemptsOf(db, j) == AttemptsOf(db', j)
    ensures db.attempts == db'.attempts
  {
    forall a | a in db.attempts ensures a in db'.attempts && db'.attempts[a] == db.attempts[a] {
      assert a in AttemptsOf(db, db.attempts[a].job);
    }
    forall a | a in db'.attempts ensures a in db.attempts {
      assert a in AttemptsOf(db', db'.attempts[a].job);
    }
  }

  lemma DossiersDetermine(db: DB, db': DB)
    requires Owned(db) && Owned(db') && db.jobs.Keys == db'.jobs.Keys
    requires forall j <- db.jobs :: DossierOf(db, j) == DossierOf(db', j)
    ensures db.dossiers == db'.dossiers
  {
    forall j | j in db.dossiers || j in db'.dossiers ensures DossierOf(db, j) == DossierOf(db', j) {}
  }

  /** The slices and the ledger hold the whole store. */
  lemma SlicesDetermine(db: DB, db': DB)
    requires Owned(db) && Owned(db') && db.jobs.Keys == db'.jobs.Keys && db.events == db'.events
    requires forall j <- db.jobs :: SliceOf(db, j) == SliceOf(db', j)
    ensures db == db'
  {
    forall j | j in db.jobs
      ensures db.jobs[j] == db'.jobs[j] && DossierOf(db, j) == DossierOf(db', j)
      ensures TasksOf(db, j) == TasksOf(db', j) && AttemptsOf(db, j) == AttemptsOf(db', j)
    {
      assert SliceOf(db, j) == SliceOf(db', j);
    }
    TasksDetermine(db, db');
    AttemptsDetermine(db, db');
    DossiersDetermine(db, db');
    assert db.jobs == db'.jobs;
  }

  lemma RecoveredTwice(h: string -> string, db: DB, db': DB)
    requires Inv(h, db) && db' == RecoveredRows(db) && Inv(h, db') && Owned(RecoveredRows(db'))
    ensures RecoveredRows(db') == db'
  {
    forall j | j in db'.jobs ensures SliceOf(RecoveredRows(db'), j) == SliceOf(db', j) {
      RecoveredSlice(db', j);
      RecoverTwiceSlice(h, db, j);
    }
    SlicesDetermine(RecoveredRows(db'), db');
  }

  /** Recovering a recovered store changes no row. */
  lemma RecoverIdempotent(h: string -> string, db: DB)
    requires Inv(h, db)
    ensures RecoverIncomplete(RecoveredRows(db)) == Ok(RecoveredRows(db))
  {
    RecoverKeeps(h, db);
    RecoverKeeps(h, RecoveredRows(db));
    RecoverNeverRaises(h, RecoveredRows(db));
    RecoveredTwice(h, db, RecoveredRows(db));
  }
}
