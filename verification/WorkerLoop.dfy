/** One run of a worker over its task, on the store, with other writes at every await. */
module WorkerLoop {
  import opened Model
  import opened StateMachine
  import opened Store
  import opened Invariant
  import opened DatabaseClass
  import opened Interleaving
  import opened Worker
  import opened WorkerWrites
  import opened Numbering

  // ---- what comes from outside ---------------------------------------------------------

  /** How an await ends: with a result, with a cancellation, or with an exception. */
  datatype Signal = Resumed | Cancelled | Raised

  /** Everything one attempt is told: by the choice of a worker, its agent, the commit and the gates, the
      diff and the reviewers, the locks and the merge with its gates and repairs. */
  datatype Course = Course(
    agentFound: bool, agentName: string, logPath: string,
    agent: Signal, agentError: string, exited: bool, returncode: int, output: string,
    checks: Signal, gates: bool, gateReport: string,
    diff: Signal, reviewers: Signal, passed: bool, verdict: string, summary: string,
    locks: Signal, merge: Signal, integrated: bool, mergeReport: string)

  /** The worktree as it was prepared. */
  datatype Place = Place(ready: Signal, existed: bool, worktree: string, branch: string, baseCommit: string)

  predicate Worked(c: Course) {
    c.agent.Resumed? && c.exited
  }

  predicate Gated(c: Course) {
    Worked(c) && c.checks.Resumed? && c.gates
  }

  predicate Approved(c: Course) {
    Gated(c) && c.diff.Resumed? && c.reviewers.Resumed? && c.passed
  }

  /** Agent, gates, review and integration of this attempt all succeeded. */
  predicate Succeeds(c: Course) {
    Approved(c) && c.locks.Resumed? && c.merge.Resumed? && c.integrated
  }

  /** One of them delivered a failure, after those before it had succeeded. */
  predicate Fails(c: Course) {
    || c.agent.Raised? || (c.agent.Resumed? && !c.exited)
    || (Worked(c) && c.checks.Resumed? && !c.gates)
    || (Gated(c) && c.diff.Resumed? && (c.reviewers.Raised? || (c.reviewers.Resumed? && !c.passed)))
    || (Approved(c) && c.locks.Resumed? && c.merge.Resumed? && !c.integrated)
  }

  /** What an attempt has been through, in order. */
  datatype Mark = AgentRan(n: int, ok: bool) | GatesRan(n: int, ok: bool) | Reviewed(n: int, ok: bool) | Merged(n: int, ok: bool)

  function Marks(n: int, c: Course): seq<Mark> {
    (if c.agent.Resumed? then [AgentRan(n, c.exited)] else []) + MarksAfterAgent(n, c)
  }

  function MarksAfterAgent(n: int, c: Course): seq<Mark> {
    (if Worked(c) && c.checks.Resumed? then [GatesRan(n, c.gates)] else []) + MarksAfterGates(n, c)
  }

  function MarksAfterGates(n: int, c: Course): seq<Mark> {
    (if Gated(c) && c.diff.Resumed? && c.reviewers.Resumed? then [Reviewed(n, c.passed)] else []) + MarksAfterReview(n, c)
  }

  function MarksAfterReview(n: int, c: Course): seq<Mark> {
    if Approved(c) && c.locks.Resumed? && c.merge.Resumed? then [Merged(n, c.integrated)] else []
  }

  /** A successful attempt went through all four, in this order, and each was a success. */
  lemma SuccessMarks(n: int, c: Course)
    ensures Succeeds(c) <==> Marks(n, c) == [AgentRan(n, true), GatesRan(n, true), Reviewed(n, true), Merged(n, true)]
  {
    if !Succeeds(c) && |Marks(n, c)| == 4 {
      assert |MarksAfterReview(n, c)| <= 1 && |MarksAfterGates(n, c)| <= 2 && |MarksAfterAgent(n, c)| <= 3;
      assert |MarksAfterAgent(n, c)| == 3 && |MarksAfterGates(n, c)| == 2 && |MarksAfterReview(n, c)| == 1;
      assert Marks(n, c)[3] == Merged(n, c.integrated);
    }
  }

  /** The feedback the next attempt starts from. */
  function Feedback(c: Course): string {
    if c.agent.Raised? then c.agentError
    else Tail(if !c.exited then c.output else if !c.gates then c.gateReport
              else if c.reviewers.Raised? || !c.passed then c.verdict else c.mergeReport, 8000)
  }

  datatype Closing = Closing(state: AttemptState, returncode: Option<int>, summary: string)

  /** How the row of the attempt is closed: passed after a success, failed after a failure, cancelled with
      its agent, and otherwise left running for the handlers of the job. */
  function ClosingOf(c: Course): Option<Closing> {
    if Succeeds(c) then Some(Closing(AttemptState.Passed, Some(0), OrElse(c.summary, "passed gates and review")))
    else if c.agent.Cancelled? then Some(Closing(AttemptState.Cancelled, None, "cancelled"))
    else if !Fails(c) then None
    else Some(Closing(AttemptState.Failed,
                      if c.agent.Raised? then None else if !c.exited then Some(c.returncode)
                      else if c.gates && (c.reviewers.Raised? || !c.passed) then Some(0) else Some(1),
                      if c.agent.Raised? then c.agentError
                      else Tail(if !c.exited then c.output else if !c.gates then c.gateReport
                                else if c.reviewers.Raised? || !c.passed then c.verdict else c.mergeReport, 4000)))
  }

  lemma Reassociate(a: seq<Mark>, b: seq<Mark>, c: seq<Mark>)
    ensures (a + b) + c == a + (b + c)
    ensures b == [] ==> a + b == a
  {
  }

  /** With this closing and this feedback a failed attempt is put back. */
  predicate Rejected(c: Course, close: Closing, lastError: string, event: string) {
    Fails(c) && ClosingOf(c) == Some(close) && Feedback(c) == lastError && close.state.Failed? && EventOf(c) == event
  }

  /** The event a failed attempt ends with; a failed integration has logged its own before. */
  function EventOf(c: Course): string {
    if c.agent.Raised? then "task.agent_error" else if !c.exited then "task.worker_failed"
    else if !c.gates then "task.gates_failed"
    else if c.reviewers.Raised? || !c.passed then "task.review_rejected" else ""
  }

  /** Neither: an exception or a cancellation took the attempt away. */
  predicate Loose(c: Course) {
    !Succeeds(c) && !Fails(c)
  }

  lemma AgentDecides(n: int, c: Course)
    ensures c.agent.Cancelled? ==>
              Loose(c) && ClosingOf(c) == Some(Closing(AttemptState.Cancelled, None, "cancelled")) && Marks(n, c) == []
    ensures c.agent.Raised? ==>
              Rejected(c, Closing(AttemptState.Failed, None, c.agentError), c.agentError, "task.agent_error") && Marks(n, c) == []
    ensures c.agent.Resumed? ==> Marks(n, c) == [AgentRan(n, c.exited)] + MarksAfterAgent(n, c)
  {
  }

  lemma ExitDecides(n: int, c: Course)
    requires c.agent.Resumed?
    ensures !c.exited ==>
              && Rejected(c, Closing(AttemptState.Failed, Some(c.returncode), Tail(c.output, 4000)), Tail(c.output, 8000),
                          "task.worker_failed")
              && MarksAfterAgent(n, c) == []
    ensures c.exited && !c.checks.Resumed? ==> Loose(c) && MarksAfterAgent(n, c) == []
    ensures c.exited && c.checks.Resumed? ==> MarksAfterAgent(n, c) == [GatesRan(n, c.gates)] + MarksAfterGates(n, c)
  {
  }

  lemma GatesDecide(n: int, c: Course)
    requires Worked(c) && c.checks.Resumed?
    ensures !c.gates ==>
              && Rejected(c, Closing(AttemptState.Failed, Some(1), Tail(c.gateReport, 4000)), Tail(c.gateReport, 8000),
                          "task.gates_failed")
              && MarksAfterGates(n, c) == []
    ensures c.gates ==> Gated(c)
  {
  }

  lemma ReviewDecides(n: int, c: Course)
    requires Gated(c)
    ensures !c.diff.Resumed? || c.reviewers.Cancelled? ==> Loose(c) && MarksAfterGates(n, c) == []
    ensures c.diff.Resumed? && (c.reviewers.Raised? || (c.reviewers.Resumed? && !c.passed)) ==>
              Rejected(c, Closing(AttemptState.Failed, Some(0), Tail(c.verdict, 4000)), Tail(c.verdict, 8000),
                       "task.review_rejected")
    ensures c.diff.Resumed? && c.reviewers.Raised? ==> MarksAfterGates(n, c) == []
    ensures c.diff.Resumed? && c.reviewers.Resumed? ==>
              MarksAfterGates(n, c) == [Reviewed(n, c.passed)] + MarksAfterReview(n, c)
    ensures c.diff.Resumed? && c.reviewers.Resumed? && c.passed ==> Approved(c)
    ensures !Approved(c) ==> MarksAfterReview(n, c) == []
  {
  }

  lemma IntegrationDecides(c: Course)
    requires Approved(c)
    ensures !c.locks.Resumed? || !c.merge.Resumed? ==> Loose(c)
    ensures c.locks.Resumed? && c.merge.Resumed? && !c.integrated ==>
              Rejected(c, Closing(AttemptState.Failed, Some(1), Tail(c.mergeReport, 4000)), Tail(c.mergeReport, 8000), "")
    ensures c.locks.Resumed? && c.merge.Resumed? && c.integrated ==>
              Succeeds(c) && !Fails(c)
              && ClosingOf(c) == Some(Closing(AttemptState.Passed, Some(0), OrElse(c.summary, "passed gates and review")))
  {
  }

  // ---- what the rows tell --------------------------------------------------------------

  /** The row of a finished attempt tells the course it took. */
  predicate Tells(row: Attempt, c: Course) {
    && row.agent == c.agentName && row.logPath == c.logPath
    && ClosingOf(c).Some? && row.state == ClosingOf(c).value.state
    && row.returncode == ClosingOf(c).value.returncode && row.summary == ClosingOf(c).value.summary
  }

  ghost predicate HasNumber(db: DB, t: TaskId, k: int) {
    exists a <- db.attempts :: db.attempts[a].task == t && db.attempts[a].number == k
  }

  /** The attempts of the task numbered above base: one for each number up to top, each of them telling its
      course, but for the current one. */
  ghost predicate Told(db: DB, t: TaskId, base: int, script: int -> Course, top: int, current: Option<AttemptId>) {
    && (forall a <- db.attempts ::
          db.attempts[a].task == t && db.attempts[a].number > base && current != Some(a) ==>
            Tells(db.attempts[a], script(db.attempts[a].number)))
    && (forall k :: base < k <= top ==> HasNumber(db, t, k))
    && (current.Some? ==>
          && current.value in db.attempts && db.attempts[current.value].number == top
          && db.attempts[current.value].agent == script(top).agentName
          && db.attempts[current.value].logPath == script(top).logPath)
  }

  lemma ToldSame(db: DB, after: DB, t: TaskId, base: int, script: int -> Course, top: int, current: Option<AttemptId>)
    requires Told(db, t, base, script, top, current) && after.attempts == db.attempts
    ensures Told(after, t, base, script, top, current)
  {
    forall k | base < k <= top ensures HasNumber(after, t, k) { assert HasNumber(db, t, k); }
  }

  lemma ToldMeanwhile(db: DB, after: DB, j: JobId, t: TaskId, base: int, script: int -> Course, top: int,
                      current: Option<AttemptId>)
    requires Told(db, t, base, script, top, current) && Meanwhile(db, after, j, t)
    requires current.Some? ==> current.value in db.attempts && db.attempts[current.value].task == t
    ensures Told(after, t, base, script, top, current)
  {
    forall k | base < k <= top ensures HasNumber(after, t, k) {
      assert HasNumber(db, t, k);
      var a :| a in db.attempts && db.attempts[a].task == t && db.attempts[a].number == k;
      assert a in after.attempts && after.attempts[a] == db.attempts[a];
    }
  }

  lemma ToldStart(db: DB, after: DB, t: TaskId, base: int, script: int -> Course, top: int, id: AttemptId, row: Attempt)
    requires Told(db, t, base, script, top, None) && id !in db.attempts && after.attempts == db.attempts[id := row]
    requires row.task == t && row.agent == script(row.number).agentName && row.logPath == script(row.number).logPath
    requires row.number > base && (top == row.number - 1 || row.number == base + 1)
    ensures Told(after, t, base, script, row.number, Some(id))
  {
    forall k | base < k <= row.number ensures HasNumber(after, t, k) {
      if k == row.number {
        assert id in after.attempts;
      } else {
        assert HasNumber(db, t, k);
        var a :| a in db.attempts && db.attempts[a].task == t && db.attempts[a].number == k;
        assert after.attempts[a] == db.attempts[a];
      }
    }
  }

  lemma ToldFinish(db: DB, after: DB, t: TaskId, base: int, script: int -> Course, top: int, id: AttemptId, row: Attempt)
    requires Told(db, t, base, script, top, Some(id)) && after.attempts == db.attempts[id := row]
    requires row.task == db.attempts[id].task && row.number == db.attempts[id].number && row.agent == db.attempts[id].agent
    requires row.logPath == db.attempts[id].logPath && Tells(row, script(top))
    ensures Told(after, t, base, script, top, None)
  {
    forall k | base < k <= top ensures HasNumber(after, t, k) {
      assert HasNumber(db, t, k);
      var a :| a in db.attempts && db.attempts[a].task == t && db.attempts[a].number == k;
      assert after.attempts[a].number == k && after.attempts[a].task == t;
    }
  }

  /** The columns of its task that only the planner and the preparation write. */
  predicate Placed(x: Task, y: Task) {
    y == x.(state := y.state, attempts := y.attempts, lastError := y.lastError, resultSummary := y.resultSummary)
  }

  // ---- the loop ------------------------------------------------------------------------

  /** Where the worker stands with its task. */
  datatype Stage = Stage(state: TaskState, counter: int, top: int, current: Option<AttemptId>)

  datatype AttemptEnd = Retry | Success | Escaped | Refused
  datatype RunEnd = Returned(ok: bool) | RunEscaped | RunRefused

  class TaskRunner {
    const db: Database
    const j: JobId
    const t: TaskId
    const maxAttempts: nat
    const place: Place
    const script: int -> Course         // what each attempt will be told, by its number
    const cleanup: Signal
    const branch: string                // the branch the worktree is on
    ghost const known: set<AttemptId>   // the attempts recorded before this run
    ghost const base: int               // the counter before this run
    ghost const start: DB               // the store before this run
    ghost var trail: seq<Mark>

    constructor (db: Database, j: JobId, t: TaskId, maxAttempts: nat, place: Place, script: int -> Course, cleanup: Signal)
      requires t in db.tasks
      ensures this.db == db && this.j == j && this.t == t && this.maxAttempts == maxAttempts
      ensures this.place == place && this.script == script && this.cleanup == cleanup && trail == []
      ensures branch == if place.existed then db.tasks[t].branch else place.branch
      ensures known == db.attempts.Keys && base == db.tasks[t].attempts && start == db.View()
    {
      this.db, this.j, this.t, this.maxAttempts := db, j, t, maxAttempts;
      this.place, this.script, this.cleanup := place, script, cleanup;
      branch := if place.existed then db.tasks[t].branch else place.branch;
      known, base, start, trail := db.attempts.Keys, db.tasks[t].attempts, db.View(), [];
    }

    ghost predicate At(st: Stage)
      reads db
    {
      && Inv(db.sha256, db.View()) && Above(db.View(), t, known, base) && Follows(db.sha256, start, db.View(), t)
      && Owns(db.View(), j, t, st.state, st.counter, st.top, st.current)
      && Told(db.View(), t, base, script, st.top, st.current)
    }

    /** An await: any run of foreign writes. */
    method Await(ghost st: Stage)
      requires At(st)
      modifies db
      ensures At(st) && t in db.tasks && db.tasks[t] == old(db.tasks[t])
    {
      var steps: seq<Step> := *;
      for i := 0 to |steps|
        invariant At(st) && t in db.tasks && db.tasks[t] == old(db.tasks[t])
      {
        if Foreign(db.View(), j, t, steps[i]) { Elsewhere(steps[i], st); }
      }
    }

    /** One foreign write. */
    method Elsewhere(s: Step, ghost st: Stage)
      requires At(st) && Foreign(db.View(), j, t, s)
      modifies db
      ensures At(st) && t in db.tasks && db.tasks[t] == old(db.tasks[t])
    {
      ghost var before := db.View();
      ForeignMeanwhile(db.sha256, before, j, t, s);
      FollowsOn(db.sha256, start, before, s, t);
      var _ := Perform(db, s);
      OwnsMeanwhile(before, db.View(), j, t, st.state, st.counter, st.top, st.current);
      ToldMeanwhile(before, db.View(), j, t, base, script, st.top, st.current);
    }

    method Update(p: TaskPatch, ghost st: Stage) returns (r: Result<()>)
      requires At(st) && p.state.GetOr(st.state) in TaskTransitions(st.state)
      requires p.attempts.GetOr(st.counter) >= st.counter
      requires st.current.Some? ==> Inflight(p.state.GetOr(st.state))
      modifies db
      ensures r.Ok? && db.jobs == old(db.jobs) && t in db.tasks && db.tasks[t] == p.On(old(db.tasks[t]))
      ensures At(Stage(p.state.GetOr(st.state), p.attempts.GetOr(st.counter), st.top, st.current))
    {
      ghost var before := db.View();
      UpdateAccepted(db.sha256, before, j, t, st.state, st.counter, st.top, st.current, p);
      FollowsOn(db.sha256, start, before, SUpdateTask(t, p), t);
      r := db.UpdateTask(t, p);
      ToldSame(before, db.View(), t, base, script, st.top, st.current);
    }

    method Log(name: string, payload: string, ghost st: Stage) returns (r: Result<()>)
      requires At(st)
      modifies db
      ensures r.Ok? && db.jobs == old(db.jobs) && db.tasks == old(db.tasks) && db.attempts == old(db.attempts) && At(st)
      ensures db.events == old(db.events) + [Event(j, Some(t), Other(name, payload))]
    {
      ghost var before := db.View();
      EventAccepted(db.sha256, before, j, t, st.state, st.counter, st.top, st.current, name, payload);
      FollowsOn(db.sha256, start, before, SEvent(j, Some(t), name, payload), t);
      r := db.LogEvent(j, Some(t), name, payload);
      ToldSame(before, db.View(), t, base, script, st.top, st.current);
    }

    method Start(id: AttemptId, n: int, worktree: string, ghost top: int) returns (r: Result<()>)
      requires At(Stage(TaskState.Running, n, top, None)) && top < n && base < n && (top == n - 1 || n == base + 1)
      requires j in db.jobs && !db.jobs[j].stopRequested && id !in db.attempts
      modifies db
      ensures r.Ok? && db.tasks == old(db.tasks) && At(Stage(TaskState.Running, n, n, Some(id)))
      ensures id in db.attempts && db.attempts[id].worktree == worktree && db.attempts[id].branch == branch
    {
      var c := script(n);
      ghost var before := db.View();
      StartAccepted(db.sha256, before, j, t, n, top, id, c.agentName, worktree, branch, c.logPath);
      FollowsOn(db.sha256, start, before, SStartAttempt(id, j, t, n, c.agentName, worktree, branch, c.logPath), t);
      r := db.StartAttempt(id, j, t, n, c.agentName, worktree, branch, c.logPath);
      ToldStart(before, db.View(), t, base, script, top, id, db.attempts[id]);
    }

    /** Close the attempt as its course asks. */
    method Finish(id: AttemptId, close: Closing, ghost st: Stage) returns (r: Result<()>)
      requires At(st) && st.current == Some(id) && Some(close) == ClosingOf(script(st.top)) && !close.state.Running?
      modifies db
      ensures r.Ok? && db.tasks == old(db.tasks) && At(st.(current := None))
    {
      ghost var before := db.View();
      FinishAccepted(db.sha256, before, j, t, st.state, st.counter, st.top, id, close.state, close.returncode, close.summary);
      FollowsOn(db.sha256, start, before, SFinishAttempt(id, close.state, close.returncode, close.summary), t);
      r := db.FinishAttempt(id, close.state, close.returncode, close.summary);
      ToldFinish(before, db.View(), t, base, script, st.top, id, db.attempts[id]);
    }

    /** new_id: an id no attempt has. */
    method NewId() returns (id: AttemptId)
      ensures id !in db.attempts
    {
      var longest: nat := 0;
      var left := db.attempts.Keys;
      while left != {}
        invariant left <= db.attempts.Keys && forall a <- db.attempts :: a !in left ==> |a| <= longest
        decreases left
      {
        var a :| a in left;
        if |a| > longest { longest := |a|; }
        left := left - {a};
      }
      id := seq(longest + 1, _ => 'x');
    }

    /** The stage and the rows an attempt leaves behind. */
    ghost predicate Ended(end: AttemptEnd, st: Stage, n: int)
      reads db
    {
      && At(st) && !end.Refused? && st.counter == n == st.top
      && (end.Success? <==> Succeeds(script(n))) && (end.Retry? <==> Fails(script(n)))
      && (end.Retry? ==>
            && st.state.Pending? && st.current.None? && t in db.tasks && db.tasks[t].lastError == Feedback(script(n))
            && (EventOf(script(n)) != "" ==> LastEvent(EventOf(script(n)))))
      && (end.Success? ==>
            && st.state.Completed? && st.current.None?
            && t in db.tasks && db.tasks[t].lastError == "" && db.tasks[t].resultSummary == script(n).summary
            && LastEvent("task.completed"))
    }

    /** The ledger ends with this event of the task. */
    ghost predicate LastEvent(name: string)
      reads db
    {
      db.events != [] && db.events[|db.events| - 1] == Event(j, Some(t), Other(name, "{}"))
    }

    /** A failed attempt: close it, put the task back with the feedback, and say why. */
    method Reject(id: AttemptId, n: int, close: Closing, lastError: string, event: string, ghost st: Stage)
      returns (end: AttemptEnd, ghost st': Stage)
      requires At(st) && st.current == Some(id) && TaskState.Pending in TaskTransitions(st.state) && st.counter == n == st.top
      requires Rejected(script(n), close, lastError, event)
      modifies db
      ensures end.Retry? && Ended(end, st', n) && Placed(old(db.tasks[t]), db.tasks[t])
    {
      st' := Stage(TaskState.Pending, n, n, None);
      var w := Finish(id, close, st);
      if w.Err? { return Refused, st'; }
      w := Update(TaskPatch(state := Some(TaskState.Pending), lastError := Some(lastError)), st.(current := None));
      if w.Err? { return Refused, st'; }
      if event != "" { w := Log(event, "{}", st'); }
      return if w.Err? then Refused else Retry, st';
    }

    /** The success path: close the attempt, then complete the task. */
    method Accept(id: AttemptId, n: int, ghost st: Stage) returns (end: AttemptEnd, ghost st': Stage)
      requires At(st) && st.current == Some(id) && st.state.Integrating? && st.counter == n == st.top
      requires Succeeds(script(n)) && !Fails(script(n))
      requires ClosingOf(script(n))
               == Some(Closing(AttemptState.Passed, Some(0), OrElse(script(n).summary, "passed gates and review")))
      modifies db
      ensures end.Success? && Ended(end, st', n) && Placed(old(db.tasks[t]), db.tasks[t])
    {
      var summary := script(n).summary;
      st' := Stage(TaskState.Completed, n, n, None);
      var w := Finish(id, Closing(AttemptState.Passed, Some(0), OrElse(summary, "passed gates and review")), st);
      if w.Err? { return Refused, st'; }
      w := Update(TaskPatch(state := Some(TaskState.Completed), resultSummary := Some(summary), lastError := Some("")),
                  st.(current := None));
      if w.Err? { return Refused, st'; }
      w := Log("task.completed", "{}", st');
      return if w.Err? then Refused else Success, st';
    }

    /** _integrate_task as far as the store sees it: wait for the locks, store the state, then merge, gates
        and repair. */
    method Integrate(n: int, ghost st: Stage) returns (signal: Signal, integrated: bool, refused: bool, ghost st': Stage)
      requires At(st) && st.state.Reviewing? && st.counter == n == st.top && Approved(script(n))
      modifies db, this`trail
      ensures !refused && At(st') && Placed(old(db.tasks[t]), db.tasks[t])
      ensures signal == if script(n).locks.Resumed? then script(n).merge else script(n).locks
      ensures st' == if script(n).locks.Resumed? then st.(state := TaskState.Integrating) else st
      ensures integrated == script(n).integrated && trail == old(trail) + MarksAfterReview(n, script(n))
    {
      var c := script(n);
      Await(st);  // the merge lock and the repository lock
      if !c.locks.Resumed? { return c.locks, c.integrated, false, st; }
      var w := Update(TaskPatch(state := Some(TaskState.Integrating)), st);
      st' := st.(state := TaskState.Integrating);
      if w.Err? { return Raised, c.integrated, true, st'; }
      Await(st');
      if c.merge.Resumed? { trail := trail + [Merged(n, c.integrated)]; }
      return c.merge, c.integrated, false, st';
    }

    /** _review_task_resilient: an exception of the diff query escapes; one of a reviewer becomes a verdict. */
    method Review(n: int, ghost st: Stage) returns (signal: Signal, passed: bool, refused: bool)
      requires At(st)
      modifies db, this`trail
      ensures !refused && At(st) && t in db.tasks && db.tasks[t] == old(db.tasks[t])
      ensures signal == (if !script(n).diff.Resumed? then script(n).diff
                         else if script(n).reviewers.Cancelled? then Signal.Cancelled else Resumed)
      ensures passed == (script(n).diff.Resumed? && script(n).reviewers.Resumed? && script(n).passed)
      ensures trail == old(trail) + if script(n).diff.Resumed? && script(n).reviewers.Resumed?
                                    then [Reviewed(n, script(n).passed)] else []
    {
      var c := script(n);
      Await(st);  // the diff
      if !c.diff.Resumed? { return c.diff, false, false; }
      Await(st);  // the reviewers, one after the other
      if c.reviewers.Cancelled? { return Signal.Cancelled, false, false; }
      if c.reviewers.Raised? { return Resumed, false, false; }
      trail := trail + [Reviewed(n, c.passed)];
      var w := Log("task.reviewed", "{}", st);
      return Resumed, c.passed, w.Err?;
    }

    /** Review and integration of work that passed its gates. */
    method ReviewAndIntegrate(id: AttemptId, n: int) returns (end: AttemptEnd, ghost st: Stage)
      requires At(Stage(TaskState.Running, n, n, Some(id))) && Gated(script(n))
      modifies db, this`trail
      ensures Ended(end, st, n) && Placed(old(db.tasks[t]), db.tasks[t])
      ensures trail == old(trail) + MarksAfterGates(n, script(n))
    {
      st := Stage(TaskState.Running, n, n, Some(id));
      var w := Update(TaskPatch(state := Some(TaskState.Reviewing)), st);
      if w.Err? { return Refused, st; }
      end, st := ReviewWork(id, n);
    }

    /** The review, and what its verdict leads to. */
    method ReviewWork(id: AttemptId, n: int) returns (end: AttemptEnd, ghost st: Stage)
      requires At(Stage(TaskState.Reviewing, n, n, Some(id))) && Gated(script(n))
      modifies db, this`trail
      ensures Ended(end, st, n) && Placed(old(db.tasks[t]), db.tasks[t])
      ensures trail == old(trail) + MarksAfterGates(n, script(n))
    {
      st := Stage(TaskState.Reviewing, n, n, Some(id));
      ReviewDecides(n, script(n));
      Reassociate(trail, [Reviewed(n, script(n).passed)], MarksAfterReview(n, script(n)));
      Reassociate(trail, [], []);
      var signal, passed, refused := Review(n, st);
      if refused { return Refused, st; }
      if !signal.Resumed? { return Escaped, st; }
      if !passed {
        end, st := TurnDown(id, n);
        return end, st;
      }
      end, st := IntegrateReviewed(id, n);
    }

    /** The review rejected the work, or no reviewer could be heard. */
    method TurnDown(id: AttemptId, n: int) returns (end: AttemptEnd, ghost st: Stage)
      requires At(Stage(TaskState.Reviewing, n, n, Some(id)))
      requires Rejected(script(n), Closing(AttemptState.Failed, Some(0), Tail(script(n).verdict, 4000)),
                        Tail(script(n).verdict, 8000), "task.review_rejected")
      modifies db
      ensures Ended(end, st, n) && Placed(old(db.tasks[t]), db.tasks[t])
    {
      var verdict := script(n).verdict;
      end, st := Reject(id, n, Closing(AttemptState.Failed, Some(0), Tail(verdict, 4000)), Tail(verdict, 8000),
                        "task.review_rejected", Stage(TaskState.Reviewing, n, n, Some(id)));
    }

    method IntegrateReviewed(id: AttemptId, n: int) returns (end: AttemptEnd, ghost st: Stage)
      requires At(Stage(TaskState.Reviewing, n, n, Some(id))) && Approved(script(n))
      modifies db, this`trail
      ensures Ended(end, st, n) && Placed(old(db.tasks[t]), db.tasks[t])
      ensures trail == old(trail) + MarksAfterReview(n, script(n))
    {
      IntegrationDecides(script(n));
      var signal, integrated, refused;
      signal, integrated, refused, st := Integrate(n, Stage(TaskState.Reviewing, n, n, Some(id)));
      if refused { return Refused, st; }
      if !signal.Resumed? { return Escaped, st; }
      end, st := CloseIntegration(id, n, integrated);
    }

    method CloseIntegration(id: AttemptId, n: int, integrated: bool) returns (end: AttemptEnd, ghost st: Stage)
      requires At(Stage(TaskState.Integrating, n, n, Some(id))) && Approved(script(n)) && integrated == script(n).integrated
      requires script(n).locks.Resumed? && script(n).merge.Resumed?
      modifies db
      ensures Ended(end, st, n) && Placed(old(db.tasks[t]), db.tasks[t])
    {
      IntegrationDecides(script(n));
      if integrated {
        end, st := Accept(id, n, Stage(TaskState.Integrating, n, n, Some(id)));
      } else {
        end, st := PutBack(id, n);
      }
    }

    /** The work could not be integrated. */
    method PutBack(id: AttemptId, n: int) returns (end: AttemptEnd, ghost st: Stage)
      requires At(Stage(TaskState.Integrating, n, n, Some(id)))
      requires Rejected(script(n), Closing(AttemptState.Failed, Some(1), Tail(script(n).mergeReport, 4000)),
                        Tail(script(n).mergeReport, 8000), "")
      modifies db
      ensures Ended(end, st, n) && Placed(old(db.tasks[t]), db.tasks[t])
    {
      var report := script(n).mergeReport;
      end, st := Reject(id, n, Closing(AttemptState.Failed, Some(1), Tail(report, 4000)), Tail(report, 8000), "",
                        Stage(TaskState.Integrating, n, n, Some(id)));
    }

    /** From the agent's return to the end of the attempt. */
    method Judge(id: AttemptId, n: int) returns (end: AttemptEnd, ghost st: Stage)
      requires At(Stage(TaskState.Running, n, n, Some(id))) && script(n).agent.Resumed?
      modifies db, this`trail
      ensures Ended(end, st, n) && Placed(old(db.tasks[t]), db.tasks[t])
      ensures trail == old(trail) + MarksAfterAgent(n, script(n))
    {
      ExitDecides(n, script(n));
      if !script(n).exited {
        end, st := ReportExit(id, n);
      } else {
        end, st := CheckWork(id, n);
      }
    }

    /** commit_all and the gates. */
    method CheckWork(id: AttemptId, n: int) returns (end: AttemptEnd, ghost st: Stage)
      requires At(Stage(TaskState.Running, n, n, Some(id))) && Worked(script(n))
      modifies db, this`trail
      ensures Ended(end, st, n) && Placed(old(db.tasks[t]), db.tasks[t])
      ensures trail == old(trail) + MarksAfterAgent(n, script(n))
    {
      st := Stage(TaskState.Running, n, n, Some(id));
      ExitDecides(n, script(n));
      Await(st);
      if !script(n).checks.Resumed? { return Escaped, st; }
      Reassociate(trail, [GatesRan(n, script(n).gates)], MarksAfterGates(n, script(n)));
      trail := trail + [GatesRan(n, script(n).gates)];
      end, st := JudgeGates(id, n);
    }

    /** The agent exited with an error. */
    method ReportExit(id: AttemptId, n: int) returns (end: AttemptEnd, ghost st: Stage)
      requires At(Stage(TaskState.Running, n, n, Some(id)))
      requires Rejected(script(n), Closing(AttemptState.Failed, Some(script(n).returncode), Tail(script(n).output, 4000)),
                        Tail(script(n).output, 8000), "task.worker_failed")
      modifies db
      ensures Ended(end, st, n) && Placed(old(db.tasks[t]), db.tasks[t])
    {
      var c := script(n);
      end, st := Reject(id, n, Closing(AttemptState.Failed, Some(c.returncode), Tail(c.output, 4000)), Tail(c.output, 8000),
                        "task.worker_failed", Stage(TaskState.Running, n, n, Some(id)));
    }

    /** From the gates' verdict on. */
    method JudgeGates(id: AttemptId, n: int) returns (end: AttemptEnd, ghost st: Stage)
      requires At(Stage(TaskState.Running, n, n, Some(id))) && Worked(script(n)) && script(n).checks.Resumed?
      modifies db, this`trail
      ensures Ended(end, st, n) && Placed(old(db.tasks[t]), db.tasks[t])
      ensures trail == old(trail) + MarksAfterGates(n, script(n))
    {
      GatesDecide(n, script(n));
      if !script(n).gates {
        var report := script(n).gateReport;
        st := Stage(TaskState.Running, n, n, Some(id));
        end, st := Reject(id, n, Closing(AttemptState.Failed, Some(1), Tail(report, 4000)), Tail(report, 8000),
                          "task.gates_failed", st);
        return end, st;
      }
      end, st := ReviewAndIntegrate(id, n);
    }

    /** One round of the loop. An attempt is a success exactly when its agent, its gates, its review and its
        integration all succeeded, in this order; a failure of one of them puts the task back. */
    method OneAttempt(n: int, worktree: string, ghost top: int) returns (end: AttemptEnd, ghost st: Stage)
      requires At(Stage(TaskState.Pending, n - 1, top, None)) && base < n && (top == n - 1 || n == base + 1)
      requires j in db.jobs && !db.jobs[j].stopRequested
      modifies db, this`trail
      ensures Ended(end, st, n) && Placed(old(db.tasks[t]), db.tasks[t])
      ensures trail == old(trail) + Marks(n, script(n))
    {
      var id := Begin(n, worktree, top);
      if id.None? { return Refused, Stage(TaskState.Running, n, n, None); }
      end, st := RunAgent(id.value, n);
    }

    /** Count the attempt, record it, and say so. */
    method Begin(n: int, worktree: string, ghost top: int) returns (id: Option<AttemptId>)
      requires At(Stage(TaskState.Pending, n - 1, top, None)) && base < n && (top == n - 1 || n == base + 1)
      requires j in db.jobs && !db.jobs[j].stopRequested
      modifies db
      ensures LastEvent("task.attempt_started")
      ensures id.Some? && At(Stage(TaskState.Running, n, n, id)) && Placed(old(db.tasks[t]), db.tasks[t])
      ensures id.value in db.attempts && db.attempts[id.value].worktree == worktree && db.attempts[id.value].branch == branch
    {
      var w := Update(TaskPatch(state := Some(TaskState.Running), attempts := Some(n), lastError := Some("")),
                      Stage(TaskState.Pending, n - 1, top, None));
      if w.Err? { return None; }
      var newId := NewId();
      w := Start(newId, n, worktree, top);
      if w.Err? { return None; }
      w := Log("task.attempt_started", "{}", Stage(TaskState.Running, n, n, Some(newId)));
      return if w.Err? then None else Some(newId);
    }

    /** The agent's run, and what follows it. */
    method RunAgent(id: AttemptId, n: int) returns (end: AttemptEnd, ghost st: Stage)
      requires At(Stage(TaskState.Running, n, n, Some(id)))
      modifies db, this`trail
      ensures Ended(end, st, n) && Placed(old(db.tasks[t]), db.tasks[t])
      ensures trail == old(trail) + Marks(n, script(n))
    {
      AgentDecides(n, script(n));
      Await(Stage(TaskState.Running, n, n, Some(id)));
      end, st := Return(id, n);
    }

    /** The agent's await is over. */
    method Return(id: AttemptId, n: int) returns (end: AttemptEnd, ghost st: Stage)
      requires At(Stage(TaskState.Running, n, n, Some(id)))
      modifies db, this`trail
      ensures Ended(end, st, n) && Placed(old(db.tasks[t]), db.tasks[t])
      ensures trail == old(trail) + Marks(n, script(n))
    {
      var c := script(n);
      AgentDecides(n, c);
      match c.agent {
        case Cancelled =>
          end, st := CancelAttempt(id, n);
        case Raised =>
          end, st := Reject(id, n, Closing(AttemptState.Failed, None, c.agentError), c.agentError, "task.agent_error",
                            Stage(TaskState.Running, n, n, Some(id)));
        case Resumed =>
          Reassociate(trail, [AgentRan(n, c.exited)], MarksAfterAgent(n, c));
          trail := trail + [AgentRan(n, c.exited)];
          end, st := Judge(id, n);
      }
    }

    method CancelAttempt(id: AttemptId, n: int) returns (end: AttemptEnd, ghost st: Stage)
      requires At(Stage(TaskState.Running, n, n, Some(id)))
      requires Loose(script(n)) && ClosingOf(script(n)) == Some(Closing(AttemptState.Cancelled, None, "cancelled"))
      modifies db
      ensures Ended(end, st, n) && t in db.tasks && db.tasks[t] == old(db.tasks[t])
    {
      var w := Finish(id, Closing(AttemptState.Cancelled, None, "cancelled"), Stage(TaskState.Running, n, n, Some(id)));
      return if w.Err? then Refused else Escaped, Stage(TaskState.Running, n, n, None);
    }

    /** Preparing the worktree: its fields are stored, then an event. */
    method PrepareWorktree(ghost st: Stage) returns (ok: bool, refused: bool)
      requires At(st) && st.state.Pending? && st.current.None? && (place.existed ==> db.tasks[t].branch == branch)
      requires !place.existed ==> branch == place.branch
      modifies db
      ensures !refused && At(st) && t in db.tasks && (ok <==> place.ready.Resumed?)
      ensures !ok ==> db.tasks[t] == old(db.tasks[t])
      ensures ok ==> LastEvent(if place.existed then "task.worktree_recovered" else "task.worktree_created")
      ensures ok ==> db.tasks[t] == old(db.tasks[t]).(worktree := place.worktree, branch := branch, baseCommit := place.baseCommit)
    {
      Await(st);
      if !place.ready.Resumed? { return false, false; }
      var p := TaskPatch(worktree := Some(place.worktree), baseCommit := Some(place.baseCommit),
                         branch := if place.existed then None else Some(place.branch));
      var w := Update(p, st);
      if w.Err? { return false, true; }
      w := Log(if place.existed then "task.worktree_recovered" else "task.worktree_created", "{}", st);
      return true, w.Err?;
    }

    /** Removing the worktree of a completed task: no failure of it is a failure of the task. */
    method CleanUp(ghost st: Stage) returns (r: RunEnd)
      requires At(st)
      modifies db
      ensures r == (if cleanup.Cancelled? then RunEscaped else Returned(true)) && At(st)
      ensures t in db.tasks && db.tasks[t] == old(db.tasks[t])
    {
      Await(st);
      if cleanup.Resumed? { return Returned(true); }
      var w := Log(if cleanup.Cancelled? then "task.cleanup_interrupted" else "task.cleanup_failed", "{}", st);
      if w.Err? { return RunRefused; }
      return if cleanup.Cancelled? then RunEscaped else Returned(true);
    }

    /** The attempt budget is used up. */
    method Exhausted(ghost st: Stage) returns (r: RunEnd)
      requires At(st) && st.state.Pending? && st.current.None?
      modifies db
      ensures r == Returned(false) && At(st.(state := TaskState.Failed))
      ensures t in db.tasks && Placed(old(db.tasks[t]), db.tasks[t])
      ensures db.tasks[t].lastError == OrElse(old(db.tasks[t].lastError), "exhausted attempt budget")
      ensures LastEvent("task.failed")
    {
      var error := OrElse(db.tasks[t].lastError, "exhausted attempt budget");
      var w := Update(TaskPatch(state := Some(TaskState.Failed), lastError := Some(error)), st);
      if w.Err? { return RunRefused; }
      w := Log("task.failed", "{}", st.(state := TaskState.Failed));
      return if w.Err? then RunRefused else Returned(false);
    }

    /** The marks of the attempts numbered from base + 1 on. */
    ghost function TrailOf(started: nat): seq<Mark> {
      if started == 0 then [] else TrailOf(started - 1) + Marks(base + started, script(base + started))
    }

    /** What the answer of the run says of its attempts: all but the last failed; true when the last succeeded,
        false when there were maxAttempts of them and the last failed as well. */
    ghost predicate Explained(r: RunEnd, started: nat) {
      && (forall k :: base < k < base + started ==> Fails(script(k)))
      && (r == Returned(true) ==> started >= 1 && Succeeds(script(base + started)))
      && (r == Returned(false) ==> started == maxAttempts && (started >= 1 ==> Fails(script(base + started))))
      && (started >= 1 && Succeeds(script(base + started)) ==> r == if cleanup.Cancelled? then RunEscaped else Returned(true))
    }

    /** _run_task_with_slot. Whatever agents, gates, reviews, merges and foreign writes do, the store
        accepts every write; the attempts of this run are numbered on from the counter without a gap and
        above all earlier ones, at most maxAttempts of them, and each row tells its course; true leaves the
        task COMPLETED after an attempt that succeeded in everything, and false leaves it FAILED after none
        did. All writes together are a disciplined history, wherever a crash may cut it. */
    method RunTask(ghost top: int) returns (r: RunEnd, ghost st: Stage, ghost started: nat)
      requires t in db.tasks && db.tasks[t].attempts == base && db.View() == start && trail == []
      requires At(Stage(TaskState.Pending, base, top, None))
      requires branch == if place.existed then db.tasks[t].branch else place.branch
      modifies db, this`trail
      ensures Outcome(r, st, started)
      ensures Follows(db.sha256, old(db.View()), db.View(), t) && Onward(old(db.View()), db.View(), t)
    {
      r, st, started := Attempts(top);
      FollowsOnward(db.sha256, start, db.View(), t);
    }

    /** What a run leaves: the stage, the task row and the marks. */
    ghost predicate Outcome(r: RunEnd, st: Stage, started: nat)
      reads this`trail, db
    {
      && !r.RunRefused? && At(st)
      && started <= maxAttempts && st.counter == base + started && st.top <= st.counter
      && (r == Returned(true) ==>
            && st.state.Completed? && st.current.None? && t in db.tasks
            && db.tasks[t].resultSummary == script(st.counter).summary && db.tasks[t].lastError == "")
      && (r == Returned(false) ==> st.state.Failed? && st.current.None? && LastEvent("task.failed"))
      && Explained(r, started) && trail == TrailOf(started)
      && (r.Returned? ==> t in db.tasks && db.tasks[t].worktree == place.worktree && db.tasks[t].branch == branch)
    }

    /** Where the loop stands after some attempts, all of them failures. */
    ghost predicate Between(st: Stage, started: nat)
      reads this`trail, db
    {
      && At(st) && st.state.Pending? && st.current.None? && st.counter == base + started
      && st.top <= st.counter && (started > 0 ==> st.top == st.counter)
      && (forall k :: base < k <= base + started ==> Fails(script(k))) && trail == TrailOf(started)
      && t in db.tasks && db.tasks[t].worktree == place.worktree && db.tasks[t].branch == branch
    }

    method Attempts(ghost top: int) returns (r: RunEnd, ghost st: Stage, ghost started: nat)
      requires t in db.tasks && db.tasks[t].attempts == base && At(Stage(TaskState.Pending, base, top, None)) && trail == []
      requires branch == if place.existed then db.tasks[t].branch else place.branch
      modifies db, this`trail
      ensures Outcome(r, st, started)
    {
      st, started := Stage(TaskState.Pending, base, top, None), 0;
      var ready, refused := PrepareWorktree(st);
      if refused { return RunRefused, st, started; }
      if !ready { return RunEscaped, st, started; }
      r, st, started := Loop(st);
    }

    /** for attempt_number in range(first_attempt, last_attempt + 1). */
    method Loop(ghost st0: Stage) returns (r: RunEnd, ghost st: Stage, ghost started: nat)
      requires Between(st0, 0)
      modifies db, this`trail
      ensures Outcome(r, st, started)
    {
      st, started := st0, 0;
      var first := db.tasks[t].attempts + 1;
      for n := first to first + maxAttempts
        invariant Between(st, started) && started == n - first <= maxAttempts && first == base + 1
      {
        var end;
        end, st, started := NextAttempt(n, st, started);
        if end.Some? { return end.value, st, started; }
      }
      r, st := GiveUp(st);
    }

    method GiveUp(ghost st0: Stage) returns (r: RunEnd, ghost st: Stage)
      requires Between(st0, maxAttempts)
      modifies db
      ensures Outcome(r, st, maxAttempts)
    {
      r := Exhausted(st0);
      st := st0.(state := TaskState.Failed);
    }

    /** One number of the range; None goes on to the next. */
    method NextAttempt(n: int, ghost st0: Stage, ghost before: nat)
      returns (r: Option<RunEnd>, ghost st: Stage, ghost started: nat)
      requires Between(st0, before) && n == base + before + 1 && before < maxAttempts
      modifies db, this`trail
      ensures r.None? ==> started == before + 1 && Between(st, started)
      ensures r.Some? ==> Outcome(r.value, st, started)
    {
      if db.jobs[j].stopRequested || !script(n).agentFound {  // a stop, or _choose_worker raises
        EscapesBetween(st0, before);
        return Some(RunEscaped), st0, before;
      }
      r, st := MakeAttempt(n, st0, before);
      started := before + 1;
    }

    lemma EscapesBetween(st: Stage, started: nat)
      requires Between(st, started) && started <= maxAttempts
      ensures Outcome(RunEscaped, st, started)
    {
    }

    method MakeAttempt(n: int, ghost st0: Stage, ghost before: nat) returns (r: Option<RunEnd>, ghost st: Stage)
      requires Between(st0, before) && n == base + before + 1 && before < maxAttempts
      requires j in db.jobs && !db.jobs[j].stopRequested
      modifies db, this`trail
      ensures r.None? ==> Between(st, before + 1)
      ensures r.Some? ==> Outcome(r.value, st, before + 1)
    {
      var end;
      end, st := OneAttempt(n, place.worktree, st0.top);
      r := AfterAttempt(end, st, before + 1);
    }

    /** What the end of an attempt means for the run. */
    method AfterAttempt(end: AttemptEnd, ghost st: Stage, ghost started: nat) returns (r: Option<RunEnd>)
      requires Ended(end, st, base + started) && 1 <= started <= maxAttempts && trail == TrailOf(started)
      requires forall k :: base < k < base + started ==> Fails(script(k))
      requires db.tasks[t].worktree == place.worktree && db.tasks[t].branch == branch
      modifies db
      ensures r.None? ==> Between(st, started)
      ensures r.Some? ==> Outcome(r.value, st, started)
    {
      match end {
        case Retry =>
          RetryGoesOn(st, started);
          return None;
        case Success =>
          var done := WindUp(st, started);
          return Some(done);
        case Escaped =>
          EscapeEnds(st, started);
          return Some(RunEscaped);
        case Refused => return Some(RunRefused);
      }
    }

    lemma RetryGoesOn(st: Stage, started: nat)
      requires Ended(Retry, st, base + started) && started >= 1 && trail == TrailOf(started)
      requires forall k :: base < k < base + started ==> Fails(script(k))
      requires db.tasks[t].worktree == place.worktree && db.tasks[t].branch == branch
      ensures Between(st, started)
    {
    }

    lemma EscapeEnds(st: Stage, started: nat)
      requires Ended(Escaped, st, base + started) && 1 <= started <= maxAttempts && trail == TrailOf(started)
      requires forall k :: base < k < base + started ==> Fails(script(k))
      ensures Outcome(RunEscaped, st, started)
    {
    }

    /** The task is completed. */
    method WindUp(ghost st: Stage, ghost started: nat) returns (r: RunEnd)
      requires Ended(Success, st, base + started) && 1 <= started <= maxAttempts && trail == TrailOf(started)
      requires forall k :: base < k < base + started ==> Fails(script(k))
      requires db.tasks[t].worktree == place.worktree && db.tasks[t].branch == branch
      modifies db
      ensures Outcome(r, st, started)
    {
      r := CleanUp(st);
      CompletedIs(r, st, started);
    }

    lemma CompletedIs(r: RunEnd, st: Stage, started: nat)
      requires At(st) && st.state.Completed? && st.current.None? && st.counter == base + started == st.top
      requires Succeeds(script(base + started)) && t in db.tasks
      requires db.tasks[t].lastError == "" && db.tasks[t].resultSummary == script(base + started).summary
      requires 1 <= started <= maxAttempts && trail == TrailOf(started)
      requires r == if cleanup.Cancelled? then RunEscaped else Returned(true)
      requires forall k :: base < k < base + started ==> Fails(script(k))
      requires db.tasks[t].worktree == place.worktree && db.tasks[t].branch == branch
      ensures Outcome(r, st, started)
    {
    }
  }
}
