/** Worker slots, per-job merge locks and per-repository locks are always acquired in this order,
    so no task is ever stuck: it can step, or waits for one that can. */
module Deadlock {
  import opened Model

  type Tid = nat
  datatype Resource = Slot | Merge(job: string) | Repo(root: string)

  function Level(r: Resource): nat {
    match r case Slot => 0 case Merge(_) => 1 case Repo(_) => 2
  }

  /** What is done: an agent with its gates and review, Git worktrees and branches, a merge with its gates,
      planning, the final cycles, the source, or clearing up. */
  datatype Kind = Attempting | Topology | Integration | Preparing | MakingPlan | Finalizing | MovingSource | Clearing

  /** What has to be held while it is done. */
  function Needs(k: Kind, job: string, root: string): set<Resource> {
    match k
    case Attempting => {Slot}
    case Topology => {Slot, Merge(job), Repo(root)}
    case Integration => {Slot, Merge(job), Repo(root)}
    case Preparing => {Repo(root)}
    case MakingPlan => {Slot}
    case Finalizing => {Slot}
    case MovingSource => {Repo(root)}
    case Clearing => {Repo(root)}
  }

  /** Work stands for agents, gates and Git calls, which return. Spawn is create_task; WaitAny and WaitAll
      wait for the handles the task has at that moment, the first of them or every one. */
  datatype Op = Acquire(r: Resource) | Release(r: Resource) | Work(kind: Kind) | Spawn(body: seq<Op>) | WaitAny | WaitAll

  // ---- the order -----------------------------------------------------------------------

  /** What is held after the operations, or None if one of them breaks the order. */
  function After(ops: seq<Op>, held: set<Resource>): Option<set<Resource>> {
    if ops == [] then Some(held)
    else match ops[0]
      case Acquire(r) => if forall h <- held :: Level(h) < Level(r) then After(ops[1..], held + {r}) else None
      case Release(r) => if r in held then After(ops[1..], held - {r}) else None
      case Work(_) | Spawn(_) => After(ops[1..], held)
      case WaitAny | WaitAll => if held == {} then After(ops[1..], held) else None
  }

  /** A worker starts no tasks and waits for none. */
  predicate Leaf(ops: seq<Op>) {
    forall i :: 0 <= i < |ops| ==> !ops[i].Spawn? && !ops[i].WaitAny? && !ops[i].WaitAll?
  }

  predicate SpawnsLeaves(ops: seq<Op>) {
    forall i :: 0 <= i < |ops| && ops[i].Spawn? ==> Leaf(ops[i].body) && After(ops[i].body, {}) == Some({})
  }

  predicate Ordered(ops: seq<Op>, held: set<Resource>) {
    After(ops, held) == Some({}) && SpawnsLeaves(ops)
  }

  lemma {:induction false} AfterAppend(a: seq<Op>, b: seq<Op>, held: set<Resource>)
    requires After(a, held).Some?
    ensures After(a + b, held) == After(b, After(a, held).value)
  {
    if a == [] {
      assert a + b == b;
    } else {
      assert (a + b)[0] == a[0] && (a + b)[1..] == a[1..] + b;
      match a[0]
      case Acquire(r) => AfterAppend(a[1..], b, held + {r});
      case Release(r) => AfterAppend(a[1..], b, held - {r});
      case _ => AfterAppend(a[1..], b, held);
    }
  }

  // ---- the programs --------------------------------------------------------------------

  /** async with r: body. */
  function Locked(r: Resource, body: seq<Op>): seq<Op> {
    [Acquire(r)] + body + [Release(r)]
  }

  lemma LockedKeeps(r: Resource, body: seq<Op>, held: set<Resource>)
    requires (forall h <- held :: Level(h) < Level(r)) && After(body, held + {r}) == Some(held + {r})
    ensures After(Locked(r, body), held) == Some(held)
  {
    assert Locked(r, body)[1..] == body + [Release(r)];
    AfterAppend(body, [Release(r)], held + {r});
    assert held + {r} - {r} == held;
    assert After([Release(r)], held + {r}) == Some(held);
  }

  /** The topology section of _run_task_with_slot and the whole of _integrate_task. */
  function MergeSection(job: string, root: string, kind: Kind): seq<Op> {
    Locked(Merge(job), Locked(Repo(root), [Work(kind)]))
  }

  /** The attempts of a worker: each runs agents and gates, and may reach the integration. */
  function Attempts(job: string, root: string, integrates: seq<bool>): seq<Op> {
    if integrates == [] then []
    else [Work(Attempting)] + (if integrates[0] then MergeSection(job, root, Integration) else [])
         + Attempts(job, root, integrates[1..])
  }

  /** _run_task. */
  function Worker(job: string, root: string, integrates: seq<bool>, cleanup: bool): seq<Op> {
    Locked(Slot, MergeSection(job, root, Topology) + Attempts(job, root, integrates)
                 + if cleanup then Locked(Repo(root), [Work(Clearing)]) else [])
  }

  /** How the run of one worker goes. */
  datatype Course = Course(integrates: seq<bool>, cleanup: bool)

  /** The ready tasks of one round are started one after the other. */
  function Launches(job: string, root: string, ready: seq<Course>): seq<Op> {
    if ready == [] then []
    else [Spawn(Worker(job, root, ready[0].integrates, ready[0].cleanup))] + Launches(job, root, ready[1..])
  }

  /** _execute_dag: every round starts the ready tasks and waits for the first handle to finish. */
  function Rounds(job: string, root: string, rounds: seq<seq<Course>>): seq<Op> {
    if rounds == [] then [] else Launches(job, root, rounds[0]) + [WaitAny] + Rounds(job, root, rounds[1..])
  }

  /** run_job: prepare the worktree, plan, schedule, finalize, apply, clean up. */
  function Orchestrator(job: string, root: string, plan: bool, rounds: seq<seq<Course>>, apply: bool, cleanup: bool)
    : seq<Op>
  {
    Locked(Repo(root), [Work(Preparing)])
    + (if plan then Locked(Slot, [Work(MakingPlan)]) else [])
    + Rounds(job, root, rounds)
    + Locked(Slot, [Work(Finalizing)])
    + (if apply then Locked(Repo(root), [Work(MovingSource)]) else [])
    + (if cleanup then Locked(Repo(root), [Work(Clearing)]) else [])
  }

  /** What is left after an exception: leave every lock, the last one taken first, then run the handler. */
  function Unwinding(held: seq<Resource>, handler: seq<Op>): seq<Op> {
    if held == [] then handler else [Release(held[|held| - 1])] + Unwinding(held[..|held| - 1], handler)
  }

  /** run_job on a job already in acceptance: apply and clean up. */
  function AcceptedResume(root: string, apply: bool, cleanup: bool): seq<Op> {
    (if apply then Locked(Repo(root), [Work(MovingSource)]) else [])
    + (if cleanup then Locked(Repo(root), [Work(Clearing)]) else [])
  }

  lemma AcceptedResumeOrdered(root: string, apply: bool, cleanup: bool)
    ensures Ordered(AcceptedResume(root, apply, cleanup), {})
  {
    RepoSectionKeeps(root, MovingSource, {});
    RepoSectionKeeps(root, Clearing, {});
    AfterAppend(if apply then Locked(Repo(root), [Work(MovingSource)]) else [],
                if cleanup then Locked(Repo(root), [Work(Clearing)]) else [], {});
  }

  lemma WorkKeeps(kind: Kind, held: set<Resource>)
    ensures After([Work(kind)], held) == Some(held)
  {
  }

  lemma MergeSectionKeeps(job: string, root: string, kind: Kind)
    ensures After(MergeSection(job, root, kind), {Slot}) == Some({Slot})
  {
    WorkKeeps(kind, {Slot} + {Merge(job)} + {Repo(root)});
    LockedKeeps(Repo(root), [Work(kind)], {Slot} + {Merge(job)});
    LockedKeeps(Merge(job), Locked(Repo(root), [Work(kind)]), {Slot});
  }

  lemma {:induction false} AttemptsKeep(job: string, root: string, integrates: seq<bool>)
    ensures After(Attempts(job, root, integrates), {Slot}) == Some({Slot})
  {
    if integrates != [] {
      var one := if integrates[0] then MergeSection(job, root, Integration) else [];
      MergeSectionKeeps(job, root, Integration);
      WorkKeeps(Attempting, {Slot});
      AfterAppend([Work(Attempting)], one, {Slot});
      AttemptsKeep(job, root, integrates[1..]);
      AfterAppend([Work(Attempting)] + one, Attempts(job, root, integrates[1..]), {Slot});
    }
  }

  lemma RepoSectionKeeps(root: string, kind: Kind, held: set<Resource>)
    requires forall h <- held :: Level(h) < 2
    ensures After(Locked(Repo(root), [Work(kind)]), held) == Some(held)
  {
    WorkKeeps(kind, held + {Repo(root)});
    LockedKeeps(Repo(root), [Work(kind)], held);
  }

  lemma LeafAppend(a: seq<Op>, b: seq<Op>)
    requires Leaf(a) && Leaf(b)
    ensures Leaf(a + b)
  {
  }

  lemma LockedLeaf(r: Resource, body: seq<Op>)
    requires Leaf(body)
    ensures Leaf(Locked(r, body))
  {
  }

  lemma MergeSectionLeaf(job: string, root: string, kind: Kind)
    ensures Leaf(MergeSection(job, root, kind))
  {
    LockedLeaf(Repo(root), [Work(kind)]);
    LockedLeaf(Merge(job), Locked(Repo(root), [Work(kind)]));
  }

  lemma {:induction false} AttemptsLeaf(job: string, root: string, integrates: seq<bool>)
    ensures Leaf(Attempts(job, root, integrates))
  {
    if integrates != [] {
      MergeSectionLeaf(job, root, Integration);
      AttemptsLeaf(job, root, integrates[1..]);
    }
  }

  lemma WorkerLeaf(job: string, root: string, integrates: seq<bool>, cleanup: bool)
    ensures Leaf(Worker(job, root, integrates, cleanup))
  {
    var tail := if cleanup then Locked(Repo(root), [Work(Clearing)]) else [];
    MergeSectionLeaf(job, root, Topology);
    AttemptsLeaf(job, root, integrates);
    LeafAppend(MergeSection(job, root, Topology), Attempts(job, root, integrates));
    LockedLeaf(Repo(root), [Work(Clearing)]);
    LeafAppend(MergeSection(job, root, Topology) + Attempts(job, root, integrates), tail);
    LockedLeaf(Slot, MergeSection(job, root, Topology) + Attempts(job, root, integrates) + tail);
  }

  /** A worker follows the order and waits for no task, however its attempts go. */
  lemma WorkerOrdered(job: string, root: string, integrates: seq<bool>, cleanup: bool)
    ensures Ordered(Worker(job, root, integrates, cleanup), {}) && Leaf(Worker(job, root, integrates, cleanup))
  {
    var tail := if cleanup then Locked(Repo(root), [Work(Clearing)]) else [];
    var body := MergeSection(job, root, Topology) + Attempts(job, root, integrates);
    MergeSectionKeeps(job, root, Topology);
    AttemptsKeep(job, root, integrates);
    AfterAppend(MergeSection(job, root, Topology), Attempts(job, root, integrates), {Slot});
    RepoSectionKeeps(root, Clearing, {Slot});
    AfterAppend(body, tail, {Slot});
    assert {} + {Slot} == {Slot};
    LockedKeeps(Slot, body + tail, {});
    WorkerLeaf(job, root, integrates, cleanup);
  }

  lemma {:induction false} LaunchesKeep(job: string, root: string, ready: seq<Course>)
    ensures After(Launches(job, root, ready), {}) == Some({}) && SpawnsLeaves(Launches(job, root, ready))
  {
    if ready != [] {
      var ops := Launches(job, root, ready);
      WorkerOrdered(job, root, ready[0].integrates, ready[0].cleanup);
      LaunchesKeep(job, root, ready[1..]);
      assert ops[1..] == Launches(job, root, ready[1..]);
    }
  }

  lemma {:induction false} RoundsKeep(job: string, root: string, rounds: seq<seq<Course>>)
    ensures After(Rounds(job, root, rounds), {}) == Some({}) && SpawnsLeaves(Rounds(job, root, rounds))
  {
    if rounds != [] {
      var launches := Launches(job, root, rounds[0]);
      LaunchesKeep(job, root, rounds[0]);
      AfterAppend(launches, [WaitAny], {});
      RoundsKeep(job, root, rounds[1..]);
      AfterAppend(launches + [WaitAny], Rounds(job, root, rounds[1..]), {});
    }
  }

  lemma OrderedAppend(a: seq<Op>, b: seq<Op>)
    requires Ordered(a, {}) && Ordered(b, {})
    ensures Ordered(a + b, {})
  {
    AfterAppend(a, b, {});
  }

  lemma SectionOrdered(r: Resource, kind: Kind)
    ensures Ordered(Locked(r, [Work(kind)]), {})
  {
    WorkKeeps(kind, {} + {r});
    LockedKeeps(r, [Work(kind)], {});
  }

  /** The orchestrator holds nothing while it starts its workers and waits for them. */
  lemma OrchestratorOrdered(job: string, root: string, plan: bool, rounds: seq<seq<Course>>, apply: bool, cleanup: bool)
    ensures Ordered(Orchestrator(job, root, plan, rounds, apply, cleanup), {})
  {
    var p1, p4 := Locked(Repo(root), [Work(Preparing)]), Locked(Slot, [Work(Finalizing)]);
    SectionOrdered(Repo(root), Preparing);
    SectionOrdered(Repo(root), MovingSource);
    SectionOrdered(Repo(root), Clearing);
    SectionOrdered(Slot, MakingPlan);
    SectionOrdered(Slot, Finalizing);
    RoundsKeep(job, root, rounds);
    var p2, p3 := if plan then Locked(Slot, [Work(MakingPlan)]) else [], Rounds(job, root, rounds);
    var p5 := if apply then Locked(Repo(root), [Work(MovingSource)]) else [];
    var p6 := if cleanup then Locked(Repo(root), [Work(Clearing)]) else [];
    OrderedAppend(p1, p2);
    OrderedAppend(p1 + p2, p3);
    OrderedAppend(p1 + p2 + p3, p4);
    OrderedAppend(p1 + p2 + p3 + p4, p5);
    OrderedAppend(p1 + p2 + p3 + p4 + p5, p6);
  }

  // ---- under which locks the work is done ----------------------------------------------

  /** Everything done by these operations is done under the locks it needs. */
  predicate Guarded(ops: seq<Op>, held: set<Resource>, job: string, root: string)
    decreases |ops|
  {
    ops == [] ||
    match ops[0]
    case Acquire(r) => Guarded(ops[1..], held + {r}, job, root)
    case Release(r) => Guarded(ops[1..], held - {r}, job, root)
    case Work(kind) => Needs(kind, job, root) <= held && Guarded(ops[1..], held, job, root)
    case _ => Guarded(ops[1..], held, job, root)
  }

  lemma {:induction false} GuardedAppend(a: seq<Op>, b: seq<Op>, held: set<Resource>, job: string, root: string)
    requires After(a, held).Some? && Guarded(a, held, job, root) && Guarded(b, After(a, held).value, job, root)
    ensures Guarded(a + b, held, job, root)
    decreases |a|
  {
    if a == [] {
      assert a + b == b;
    } else {
      assert (a + b)[0] == a[0] && (a + b)[1..] == a[1..] + b;
      match a[0]
      case Acquire(r) => GuardedAppend(a[1..], b, held + {r}, job, root);
      case Release(r) => GuardedAppend(a[1..], b, held - {r}, job, root);
      case _ => GuardedAppend(a[1..], b, held, job, root);
    }
  }

  lemma LockedGuarded(r: Resource, body: seq<Op>, held: set<Resource>, job: string, root: string)
    requires After(body, held + {r}) == Some(held + {r}) && Guarded(body, held + {r}, job, root)
    ensures Guarded(Locked(r, body), held, job, root)
  {
    assert Locked(r, body)[1..] == body + [Release(r)];
    assert Guarded([Release(r)], held + {r}, job, root);
    GuardedAppend(body, [Release(r)], held + {r}, job, root);
  }

  lemma WorkGuarded(kind: Kind, held: set<Resource>, job: string, root: string)
    requires Needs(kind, job, root) <= held
    ensures Guarded([Work(kind)], held, job, root)
  {
  }

  lemma MergeSectionGuarded(job: string, root: string, kind: Kind)
    requires kind.Topology? || kind.Integration?
    ensures Guarded(MergeSection(job, root, kind), {Slot}, job, root)
  {
    var inner := {Slot} + {Merge(job)};
    WorkGuarded(kind, inner + {Repo(root)}, job, root);
    WorkKeeps(kind, inner + {Repo(root)});
    LockedGuarded(Repo(root), [Work(kind)], inner, job, root);
    RepoSectionKeeps(root, kind, inner);
    LockedGuarded(Merge(job), Locked(Repo(root), [Work(kind)]), {Slot}, job, root);
  }

  lemma {:induction false} AttemptsGuarded(job: string, root: string, integrates: seq<bool>)
    ensures Guarded(Attempts(job, root, integrates), {Slot}, job, root)
  {
    if integrates != [] {
      var one := if integrates[0] then MergeSection(job, root, Integration) else [];
      MergeSectionGuarded(job, root, Integration);
      MergeSectionKeeps(job, root, Integration);
      WorkGuarded(Attempting, {Slot}, job, root);
      WorkKeeps(Attempting, {Slot});
      GuardedAppend([Work(Attempting)], one, {Slot}, job, root);
      AfterAppend([Work(Attempting)], one, {Slot});
      AttemptsGuarded(job, root, integrates[1..]);
      GuardedAppend([Work(Attempting)] + one, Attempts(job, root, integrates[1..]), {Slot}, job, root);
    }
  }

  /** A worker does its attempts under a slot, and worktrees, branches and merges under the job's merge lock
      and the repository lock as well. */
  lemma WorkerGuarded(job: string, root: string, integrates: seq<bool>, cleanup: bool)
    ensures Guarded(Worker(job, root, integrates, cleanup), {}, job, root)
  {
    var first, rest := MergeSection(job, root, Topology), Attempts(job, root, integrates);
    var tail := if cleanup then Locked(Repo(root), [Work(Clearing)]) else [];
    MergeSectionGuarded(job, root, Topology);
    MergeSectionKeeps(job, root, Topology);
    AttemptsGuarded(job, root, integrates);
    AttemptsKeep(job, root, integrates);
    GuardedAppend(first, rest, {Slot}, job, root);
    AfterAppend(first, rest, {Slot});
    WorkGuarded(Clearing, {Slot} + {Repo(root)}, job, root);
    WorkKeeps(Clearing, {Slot} + {Repo(root)});
    LockedGuarded(Repo(root), [Work(Clearing)], {Slot}, job, root);
    GuardedAppend(first + rest, tail, {Slot}, job, root);
    RepoSectionKeeps(root, Clearing, {Slot});
    AfterAppend(first + rest, tail, {Slot});
    assert {} + {Slot} == {Slot};
    LockedGuarded(Slot, first + rest + tail, {}, job, root);
  }

  lemma SectionGuarded(r: Resource, kind: Kind, job: string, root: string)
    requires Needs(kind, job, root) <= {r}
    ensures Guarded(Locked(r, [Work(kind)]), {}, job, root) && After(Locked(r, [Work(kind)]), {}) == Some({})
  {
    WorkGuarded(kind, {} + {r}, job, root);
    WorkKeeps(kind, {} + {r});
    LockedGuarded(r, [Work(kind)], {}, job, root);
    SectionOrdered(r, kind);
  }

  lemma {:induction false} LaunchesGuarded(job: string, root: string, ready: seq<Course>)
    ensures Guarded(Launches(job, root, ready), {}, job, root)
  {
    if ready != [] {
      LaunchesGuarded(job, root, ready[1..]);
      assert Launches(job, root, ready)[1..] == Launches(job, root, ready[1..]);
    }
  }

  lemma {:induction false} RoundsGuarded(job: string, root: string, rounds: seq<seq<Course>>)
    ensures Guarded(Rounds(job, root, rounds), {}, job, root)
  {
    if rounds != [] {
      var launches := Launches(job, root, rounds[0]);
      LaunchesGuarded(job, root, rounds[0]);
      LaunchesKeep(job, root, rounds[0]);
      assert Guarded([WaitAny], {}, job, root);
      GuardedAppend(launches, [WaitAny], {}, job, root);
      AfterAppend(launches, [WaitAny], {});
      RoundsGuarded(job, root, rounds[1..]);
      GuardedAppend(launches + [WaitAny], Rounds(job, root, rounds[1..]), {}, job, root);
    }
  }

  lemma GuardedOn(a: seq<Op>, b: seq<Op>, job: string, root: string)
    requires After(a, {}) == Some({}) && Guarded(a, {}, job, root)
    requires After(b, {}) == Some({}) && Guarded(b, {}, job, root)
    ensures After(a + b, {}) == Some({}) && Guarded(a + b, {}, job, root)
  {
    AfterAppend(a, b, {});
    GuardedAppend(a, b, {}, job, root);
  }

  /** The orchestrator plans and finalizes under a slot, and prepares, applies and clears up under the
      repository lock. */
  lemma OrchestratorGuarded(job: string, root: string, plan: bool, rounds: seq<seq<Course>>, apply: bool, cleanup: bool)
    ensures Guarded(Orchestrator(job, root, plan, rounds, apply, cleanup), {}, job, root)
  {
    var p1, p4 := Locked(Repo(root), [Work(Preparing)]), Locked(Slot, [Work(Finalizing)]);
    var p2, p3 := if plan then Locked(Slot, [Work(MakingPlan)]) else [], Rounds(job, root, rounds);
    var p5 := if apply then Locked(Repo(root), [Work(MovingSource)]) else [];
    var p6 := if cleanup then Locked(Repo(root), [Work(Clearing)]) else [];
    SectionGuarded(Repo(root), Preparing, job, root);
    SectionGuarded(Slot, MakingPlan, job, root);
    SectionGuarded(Slot, Finalizing, job, root);
    SectionGuarded(Repo(root), MovingSource, job, root);
    SectionGuarded(Repo(root), Clearing, job, root);
    RoundsKeep(job, root, rounds);
    RoundsGuarded(job, root, rounds);
    GuardedOn(p1, p2, job, root);
    GuardedOn(p1 + p2, p3, job, root);
    GuardedOn(p1 + p2 + p3, p4, job, root);
    GuardedOn(p1 + p2 + p3 + p4, p5, job, root);
    GuardedOn(p1 + p2 + p3 + p4 + p5, p6, job, root);
  }

  function SetOf(held: seq<Resource>): set<Resource> {
    set r | r in held
  }

  /** An exception anywhere, whatever is held: the locks are left and then the handlers may wait for every
      worker started so far, as _cancel_active does. */
  lemma {:induction false} UnwindingOrdered(held: seq<Resource>, handler: seq<Op>)
    requires Ordered(handler, {}) && forall i, k :: 0 <= i < k < |held| ==> held[i] != held[k]
    ensures Ordered(Unwinding(held, handler), SetOf(held))
    decreases |held|
  {
    if held == [] {
      assert SetOf(held) == {};
    } else {
      var n := |held| - 1;
      UnwindingOrdered(held[..n], handler);
      assert SetOf(held) - {held[n]} == SetOf(held[..n]);
      assert Unwinding(held, handler)[1..] == Unwinding(held[..n], handler);
    }
  }

  lemma CancelledOrdered(held: seq<Resource>)
    requires forall i, k :: 0 <= i < k < |held| ==> held[i] != held[k]
    ensures Ordered(Unwinding(held, [WaitAll]), SetOf(held)) && Ordered(Unwinding(held, []), SetOf(held))
    ensures Leaf(Unwinding(held, []))
  {
    assert After([WaitAll], {}) == Some({});
    UnwindingOrdered(held, [WaitAll]);
    UnwindingOrdered(held, []);
    UnwindingLeaf(held);
  }

  lemma {:induction false} UnwindingLeaf(held: seq<Resource>)
    ensures Leaf(Unwinding(held, []))
    decreases |held|
  {
    if held != [] { UnwindingLeaf(held[..|held| - 1]); }
  }

  // ---- the system ----------------------------------------------------------------------

  /** active are the handles of the tasks it started and has not seen finished; a worker was started by
      another task. */
  datatype Thread = Thread(ops: seq<Op>, held: set<Resource>, active: set<Tid>, worker: bool)
  datatype System = System(threads: map<Tid, Thread>, nextId: Tid)

  function Holders(s: System, r: Resource): set<Tid> {
    set t | t in s.threads && r in s.threads[t].held
  }

  predicate Done(s: System, t: Tid) {
    t !in s.threads || s.threads[t].ops == []
  }

  predicate CanStep(s: System, capacity: nat, t: Tid) {
    && t in s.threads && s.threads[t].ops != []
    && match s.threads[t].ops[0]
       case Acquire(r) => |Holders(s, r)| < if r.Slot? then capacity else 1
       case Release(_) | Work(_) | Spawn(_) => true
       case WaitAny => s.threads[t].active == {} || exists h <- s.threads[t].active :: Done(s, h)
       case WaitAll => forall h <- s.threads[t].active :: Done(s, h)
  }

  /** Handles are those of workers. */
  ghost predicate HandlesOk(s: System, th: Thread) {
    forall h <- th.active :: h in s.threads && s.threads[h].worker
  }

  ghost predicate ThreadOk(s: System, t: Tid) {
    t in s.threads ==>
      && t < s.nextId && Ordered(s.threads[t].ops, s.threads[t].held) && HandlesOk(s, s.threads[t])
      && (s.threads[t].worker ==> Leaf(s.threads[t].ops))
  }

  datatype Step =
    | Start(ops: seq<Op>)              // run_job on another job
    | Advance(t: Tid)
    | Cancel(t: Tid, cleanup: seq<Op>) // the rest of the program is replaced by its handlers

  function AdvanceOf(s: System, th: Thread): Thread
    requires th.ops != []
  {
    var next := th.(ops := th.ops[1..]);
    match th.ops[0]
    case Acquire(r) => next.(held := th.held + {r})
    case Release(r) => next.(held := th.held - {r})
    case Work(_) => next
    case Spawn(_) => next.(active := th.active + {s.nextId})
    case WaitAny => next.(active := set h | h in th.active && !Done(s, h))
    case WaitAll => next.(active := {})
  }

  function Create(s: System, ops: seq<Op>, worker: bool): System {
    System(s.threads[s.nextId := Thread(ops, {}, {}, worker)], s.nextId + 1)
  }

  function Put(s: System, t: Tid, th: Thread): System {
    s.(threads := s.threads[t := th])
  }

  ghost predicate Enabled(s: System, capacity: nat, step: Step) {
    match step
    case Start(ops) => Ordered(ops, {})
    case Advance(t) => CanStep(s, capacity, t)
    case Cancel(t, cleanup) =>
      t in s.threads && Ordered(cleanup, s.threads[t].held) && (s.threads[t].worker ==> Leaf(cleanup))
  }

  function Next(s: System, step: Step): System
    requires step.Advance? ==> step.t in s.threads && s.threads[step.t].ops != []
    requires step.Cancel? ==> step.t in s.threads
  {
    match step
    case Start(ops) => Create(s, ops, false)
    case Advance(t) =>
      var th := s.threads[t];
      if th.ops[0].Spawn? then Put(Create(s, th.ops[0].body, true), t, AdvanceOf(s, th)) else Put(s, t, AdvanceOf(s, th))
    case Cancel(t, cleanup) => Put(s, t, s.threads[t].(ops := cleanup))
  }

  ghost predicate Inv(s: System, capacity: nat) {
    && (forall t :: ThreadOk(s, t))
    && (forall r: Resource :: |Holders(s, r)| <= if r.Slot? then capacity else 1)
  }

  // ---- every step keeps the invariant --------------------------------------------------

  lemma CreateKeeps(s: System, capacity: nat, ops: seq<Op>, worker: bool)
    requires Inv(s, capacity) && Ordered(ops, {}) && (worker ==> Leaf(ops))
    ensures Inv(Create(s, ops, worker), capacity)
  {
    var s' := Create(s, ops, worker);
    assert ThreadOk(s, s.nextId);
    forall r: Resource ensures |Holders(s', r)| <= if r.Slot? then capacity else 1 {
      assert Holders(s', r) == Holders(s, r);
    }
    forall u ensures ThreadOk(s', u) { assert ThreadOk(s, u); }
  }

  /** What a step may do to the task it moves. */
  ghost predicate Moved(s: System, capacity: nat, t: Tid, th: Thread) {
    && t in s.threads && th.worker == s.threads[t].worker
    && Ordered(th.ops, th.held) && HandlesOk(s, th) && (th.worker ==> Leaf(th.ops))
    && forall r <- th.held :: r in s.threads[t].held || |Holders(s, r)| < if r.Slot? then capacity else 1
  }

  lemma PutHolders(s: System, capacity: nat, t: Tid, th: Thread, r: Resource)
    requires Inv(s, capacity) && Moved(s, capacity, t, th)
    ensures |Holders(Put(s, t, th), r)| <= if r.Slot? then capacity else 1
  {
    var was, now := Holders(s, r), Holders(Put(s, t, th), r);
    if r in th.held {
      assert now == was + {t};
      if r in s.threads[t].held { assert now == was; }
    } else {
      assert now == was - {t};
      Subset(now, was);
    }
  }

  lemma Subset(a: set<Tid>, b: set<Tid>)
    requires a <= b
    ensures |a| <= |b|
  {
    assert b == a + (b - a);
  }

  lemma PutKeeps(s: System, capacity: nat, t: Tid, th: Thread)
    requires Inv(s, capacity) && Moved(s, capacity, t, th)
    ensures Inv(Put(s, t, th), capacity)
  {
    forall r: Resource ensures |Holders(Put(s, t, th), r)| <= if r.Slot? then capacity else 1 {
      PutHolders(s, capacity, t, th, r);
    }
    forall u ensures ThreadOk(Put(s, t, th), u) {
      assert ThreadOk(s, u) && ThreadOk(s, t);
    }
  }

  lemma OrderedRest(ops: seq<Op>, held: set<Resource>)
    requires Ordered(ops, held) && ops != []
    ensures SpawnsLeaves(ops[1..]) && (Leaf(ops) ==> Leaf(ops[1..]))
  {
    assert forall i :: 0 <= i < |ops| - 1 ==> ops[1..][i] == ops[i + 1];
  }

  lemma AdvanceKeeps(s: System, capacity: nat, t: Tid)
    requires Inv(s, capacity) && CanStep(s, capacity, t)
    ensures Inv(Next(s, Advance(t)), capacity)
  {
    var th := s.threads[t];
    assert ThreadOk(s, t);
    OrderedRest(th.ops, th.held);
    if th.ops[0].Spawn? {
      CreateKeeps(s, capacity, th.ops[0].body, true);
      var s1 := Create(s, th.ops[0].body, true);
      PutKeeps(s1, capacity, t, AdvanceOf(s, th));
    } else {
      PutKeeps(s, capacity, t, AdvanceOf(s, th));
    }
  }

  lemma NextKeeps(s: System, capacity: nat, step: Step)
    requires Inv(s, capacity) && Enabled(s, capacity, step)
    ensures Inv(Next(s, step), capacity)
  {
    match step
    case Start(ops) => CreateKeeps(s, capacity, ops, false);
    case Advance(t) => AdvanceKeeps(s, capacity, t);
    case Cancel(t, cleanup) =>
      assert ThreadOk(s, t);
      PutKeeps(s, capacity, t, s.threads[t].(ops := cleanup));
  }

  // ---- deadlock freedom ----------------------------------------------------------------

  /** t waits for something that u has to do: give a lock or slot back, or finish. */
  ghost predicate WaitsFor(s: System, t: Tid, u: Tid) {
    && !Done(s, t) && u in s.threads
    && match s.threads[t].ops[0]
       case Acquire(r) => r in s.threads[u].held
       case WaitAny | WaitAll => u in s.threads[t].active && !Done(s, u)
       case _ => false
  }

  /** t can step, or waits for someone who can, over at most n tasks. */
  ghost predicate Live(s: System, capacity: nat, t: Tid, n: nat)
    decreases n
  {
    CanStep(s, capacity, t) || (n > 0 && exists u :: WaitsFor(s, t, u) && Live(s, capacity, u, n - 1))
  }

  lemma {:induction false} LiveLonger(s: System, capacity: nat, t: Tid, n: nat, m: nat)
    requires Live(s, capacity, t, n) && n <= m
    ensures Live(s, capacity, t, m)
    decreases n
  {
    if !CanStep(s, capacity, t) {
      var u :| WaitsFor(s, t, u) && Live(s, capacity, u, n - 1);
      LiveLonger(s, capacity, u, n - 1, m - 1);
    }
  }

  /** A held lock is held by someone who can step or who waits for a higher one. */
  lemma HolderMoves(s: System, capacity: nat, t: Tid, r: Resource)
    requires Inv(s, capacity) && t in s.threads && r in s.threads[t].held
    ensures var ops := s.threads[t].ops;
      ops != [] && (CanStep(s, capacity, t) || (ops[0].Acquire? && Level(ops[0].r) > Level(r)))
  {
    assert ThreadOk(s, t);
  }

  lemma {:induction false} WanterLive(s: System, capacity: nat, t: Tid)
    requires Inv(s, capacity) && capacity >= 1
    requires !Done(s, t) && s.threads[t].ops[0].Acquire?
    ensures Live(s, capacity, t, 3 - Level(s.threads[t].ops[0].r))
    decreases 2 - Level(s.threads[t].ops[0].r)
  {
    var r := s.threads[t].ops[0].r;
    if !CanStep(s, capacity, t) {
      assert Holders(s, r) != {};
      var u :| u in Holders(s, r);
      HolderMoves(s, capacity, u, r);
      if !CanStep(s, capacity, u) {
        WanterLive(s, capacity, u);
        LiveLonger(s, capacity, u, 3 - Level(s.threads[u].ops[0].r), 2 - Level(r));
      }
      assert WaitsFor(s, t, u) && Live(s, capacity, u, 2 - Level(r));
    }
  }

  lemma LeafLive(s: System, capacity: nat, t: Tid)
    requires Inv(s, capacity) && capacity >= 1 && !Done(s, t)
    requires !s.threads[t].ops[0].WaitAny? && !s.threads[t].ops[0].WaitAll?
    ensures Live(s, capacity, t, 3)
  {
    if s.threads[t].ops[0].Acquire? {
      WanterLive(s, capacity, t);
      LiveLonger(s, capacity, t, 3 - Level(s.threads[t].ops[0].r), 3);
    } else {
      assert CanStep(s, capacity, t);
    }
  }

  /** Every unfinished task can step or waits, over at most four others, for one that can: no set of tasks
      is ever stuck among themselves, whatever the rest does. */
  lemma DeadlockFree(s: System, capacity: nat, t: Tid)
    requires Inv(s, capacity) && capacity >= 1 && !Done(s, t)
    ensures Live(s, capacity, t, 4)
  {
    var op := s.threads[t].ops[0];
    if op.WaitAny? || op.WaitAll? {
      if !CanStep(s, capacity, t) {
        var h :| h in s.threads[t].active && !Done(s, h);
        assert ThreadOk(s, t) && ThreadOk(s, h);
        LeafLive(s, capacity, h);
        assert WaitsFor(s, t, h);
      }
    } else {
      LeafLive(s, capacity, t);
      LiveLonger(s, capacity, t, 3, 4);
    }
  }

  // ---- runs ----------------------------------------------------------------------------

  ghost predicate IsRun(capacity: nat, states: seq<System>, steps: seq<Step>) {
    && |states| == |steps| + 1 && states[0] == System(map[], 0)
    && forall i :: 0 <= i < |steps| ==>
         Enabled(states[i], capacity, steps[i]) && states[i + 1] == Next(states[i], steps[i])
  }

  lemma {:induction false} RunKeeps(capacity: nat, states: seq<System>, steps: seq<Step>, i: nat)
    requires IsRun(capacity, states, steps) && i <= |steps|
    ensures Inv(states[i], capacity)
  {
    if i == 0 {
      forall r: Resource ensures |Holders(states[0], r)| == 0 { assert Holders(states[0], r) == {}; }
    } else {
      RunKeeps(capacity, states, steps, i - 1);
      NextKeeps(states[i - 1], capacity, steps[i - 1]);
    }
  }

  /** In every state of every run, with at least one worker slot, no unfinished task is stuck; locks are
      exclusive and at most capacity tasks hold a slot. */
  lemma RunsNeverDeadlock(capacity: nat, states: seq<System>, steps: seq<Step>, i: nat)
    requires capacity >= 1 && IsRun(capacity, states, steps) && i <= |steps|
    ensures forall t :: !Done(states[i], t) ==> Live(states[i], capacity, t, 4)
    ensures |Holders(states[i], Slot)| <= capacity
    ensures forall r: Resource, a, b :: !r.Slot? && a in Holders(states[i], r) && b in Holders(states[i], r) ==> a == b
  {
    var s := states[i];
    RunKeeps(capacity, states, steps, i);
    forall t | !Done(s, t) ensures Live(s, capacity, t, 4) { DeadlockFree(s, capacity, t); }
    forall r: Resource, a, b | !r.Slot? && a in Holders(s, r) && b in Holders(s, r) ensures a == b {
      assert a != b ==> |{a, b}| == 2;
      Subset({a, b}, Holders(s, r));
    }
  }
}
