/** The coordinator as the program keeps it: dictionaries updated in place between two awaits.
    Each method is one such stretch and is proved to be one step of Locks.dfy. */
module Coordinator {
  import opened Model
  import opened Locks

  class ResourceCoordinator {
    var locks: map<Key, LockId>
    var waiters: map<Key, nat>
    var active: set<Key>
    var heap: map<LockId, Lock>     // the asyncio.Lock objects
    var nextLock: LockId
    var tasks: map<Tid, Pc>         // where each task stands
    var threads: map<Tid, Key>      // the threads at work

    constructor ()
      ensures View() == START
    {
      locks, waiters, active, heap, nextLock, tasks, threads := map[], map[], {}, map[], 0, map[], map[];
    }

    function View(): State
      reads this
    {
      State(locks, waiters, active, heap, nextLock, tasks, threads)
    }

    /** dict.setdefault with a new lock. */
    method EntryFor(key: Key) returns (lock: LockId)
      requires key in locks ==> locks[key] in heap
      modifies this`locks, this`heap, this`nextLock
      ensures View() == Setdefault(old(View()), key)
      ensures key in locks && lock == locks[key] && lock in heap
    {
      if key !in locks {
        heap := heap[nextLock := Lock(None, [])];
        locks := locks[key := nextLock];
        nextLock := nextLock + 1;
      }
      lock := locks[key];
    }

    /** repo_lock up to its first await, or into the body. */
    method Enter(t: Tid, key: Key) returns (acquired: bool)
      requires key in locks ==> locks[key] in heap
      modifies this
      ensures View() == EnterOf(old(View()), t, key)
      ensures acquired <==> PcOf(View(), t).Holding?
    {
      var lock := EntryFor(key);
      ghost var s1 := View();
      var before := waiters;
      waiters := waiters[key := (if key in waiters then waiters[key] else 0) + 1];
      if FastPath(heap[lock]) {
        heap := heap[lock := heap[lock].(holder := Some(t))];
        waiters := waiters[key := waiters[key] - 1];
        assert waiters == before[key := CountOf(s1, key)];
        active := active + {key};
        tasks := tasks[t := Holding(key, lock, InBody(false))];
        acquired := true;
      } else {
        heap := heap[lock := heap[lock].(queue := heap[lock].queue + [Waiter(t, Future.Pending)])];
        tasks := tasks[t := Waiting(key, lock)];
        acquired := false;
      }
    }

    /** The await returned: leave the queue and take the lock. */
    method Resume(t: Tid)
      requires Enabled(View(), Step.Resume(t))
      modifies this
      ensures View() == ResumeOf(old(View()), t)
    {
      var key, lock := tasks[t].key, tasks[t].lock;
      heap := heap[lock := heap[lock].(queue := Without(heap[lock].queue, t))];
      heap := heap[lock := heap[lock].(holder := Some(t))];
      waiters := waiters[key := Less(if key in waiters then waiters[key] else 0)];
      active := active + {key};
      tasks := tasks[t := Holding(key, lock, InBody(false))];
    }

    /** _wake_up_first. */
    method WakeUpFirst(lock: LockId)
      requires lock in heap
      modifies this`heap
      ensures heap == old(heap)[lock := WakeFirst(old(heap)[lock])]
    {
      var queue := heap[lock].queue;
      if queue != [] && queue[0].future.Pending? {
        heap := heap[lock := heap[lock].(queue := queue[0 := queue[0].(future := Woken(false))])];
      }
    }

    /** The outer finally. */
    method DropWhenIdle(key: Key, lock: LockId)
      requires lock in heap
      modifies this`waiters, this`locks
      ensures View() == DropIdle(old(View()), key, lock)
    {
      if key in waiters && waiters[key] == 0 {
        waiters := waiters - {key};
        if heap[lock].holder.None? { locks := locks - {key}; }
      }
    }

    /** The await raised CancelledError: leave the queue, pass the wakeup on, drop the count. */
    method Unwind(t: Tid)
      requires Enabled(View(), Step.Unwind(t))
      modifies this
      ensures View() == UnwindOf(old(View()), t)
    {
      var key, lock := tasks[t].key, tasks[t].lock;
      heap := heap[lock := heap[lock].(queue := Without(heap[lock].queue, t))];
      if heap[lock].holder.None? { WakeUpFirst(lock); }
      waiters := waiters[key := Less(if key in waiters then waiters[key] else 0)];
      tasks := tasks[t := Idle];
      DropWhenIdle(key, lock);
    }

    /** atomic_to_thread up to its await: the thread runs and the caller waits in the shield. */
    method StartMutation(t: Tid)
      requires Enabled(View(), Step.StartMutation(t))
      modifies this
      ensures View() == Next(old(View()), Step.StartMutation(t))
    {
      threads := threads[t := tasks[t].key];
      tasks := tasks[t := tasks[t].(frame := Shielded(false, false))];
    }

    /** The await of the shield returned or raised: the loop goes round or is left. */
    method Recheck(t: Tid)
      requires Enabled(View(), Step.Recheck(t))
      modifies this
      ensures View() == Next(old(View()), Step.Recheck(t))
    {
      var cancelled := tasks[t].frame.cancelled;
      if tasks[t].frame.signal { cancelled := true; }
      if t in threads {
        tasks := tasks[t := tasks[t].(frame := Shielded(cancelled, false))];
      } else {
        tasks := tasks[t := tasks[t].(frame := InBody(cancelled))];
      }
    }

    /** The body ended: release, wake the next, and drop the entry if nobody counts. */
    method Exit(t: Tid)
      requires Enabled(View(), Step.Exit(t))
      modifies this
      ensures View() == ExitOf(old(View()), t)
    {
      var key, lock := tasks[t].key, tasks[t].lock;
      active := active - {key};
      heap := heap[lock := heap[lock].(holder := None)];
      WakeUpFirst(lock);
      tasks := tasks[t := Idle];
      DropWhenIdle(key, lock);
    }
  }

  // ---- finish_before_cancel ------------------------------------------------------------

  /** How the inner operation settled. */
  datatype Settled = Value(v: int) | Error(name: string)

  /** One await of the shielded inner operation: it settled, or a cancellation arrived first (and the
      inner operation may have settled by the time the loop looks). */
  datatype Await = Woke | Interrupted(done: bool)

  datatype Outcome = StillWaiting | Returns(v: int) | Raises(name: string) | RaisesCancelled

  predicate Settles(a: Await) {
    a.Woke? || a.done
  }

  /** Where the loop of the lock system stands after these awaits. */
  function Through(f: Frame, awaits: seq<Await>): Frame
    decreases |awaits|
  {
    if awaits == [] || f.InBody? then f
    else Through(AfterAwait(f.cancelled, awaits[0].Interrupted?, Settles(awaits[0])), awaits[1..])
  }

  /** Nothing escapes before the inner operation has settled. Then any cancellation that arrived is
      raised, in place of the result or the error; without one the result or the error comes out. And
      this is what the lock system does at a shielded await. */
  method FinishBeforeCancel(awaits: seq<Await>, inner: Settled) returns (r: Outcome, n: nat)
    ensures r.StillWaiting? <==> forall i :: 0 <= i < |awaits| ==> !Settles(awaits[i])
    ensures !r.StillWaiting? ==> 0 < n <= |awaits| && Settles(awaits[n - 1])
    ensures !r.StillWaiting? ==> forall i :: 0 <= i < n - 1 ==> !Settles(awaits[i])
    ensures !r.StillWaiting? ==> (r.RaisesCancelled? <==> exists i :: 0 <= i < n && awaits[i].Interrupted?)
    ensures !r.StillWaiting? && !r.RaisesCancelled? ==>
              r == (match inner case Value(v) => Returns(v) case Error(e) => Raises(e))
    ensures var f := Through(Shielded(false, false), awaits);
      (r.StillWaiting? <==> f.Shielded?) && (r.RaisesCancelled? <==> f == InBody(true))
  {
    var done, cancelled := false, false;
    n := 0;
    while !done
      invariant n <= |awaits|
      invariant done <==> n > 0 && Settles(awaits[n - 1])
      invariant forall i :: 0 <= i < n - 1 ==> !Settles(awaits[i])
      invariant cancelled <==> exists i :: 0 <= i < n && awaits[i].Interrupted?
      invariant Through(Shielded(false, false), awaits)
                == Through(if done then InBody(cancelled) else Shielded(cancelled, false), awaits[n..])
      decreases |awaits| - n
    {
      if n == |awaits| { return StillWaiting, n; }
      assert awaits[n..][1..] == awaits[n + 1..];
      match awaits[n] {
        case Woke => done := true;
        case Interrupted(settled) => cancelled, done := true, settled;
      }
      n := n + 1;
    }
    if cancelled { return RaisesCancelled, n; }
    match inner {
      case Value(v) => return Returns(v), n;
      case Error(e) => return Raises(e), n;
    }
  }

  /** One await as steps of the lock system. */
  function StepsOf(t: Tid, a: Await): seq<Step> {
    match a
    case Woke => [ThreadEnds(t), Recheck(t)]
    case Interrupted(done) => if done then [Cancel(t), ThreadEnds(t), Recheck(t)] else [Cancel(t), Recheck(t)]
  }

  function AllSteps(t: Tid, awaits: seq<Await>): seq<Step> {
    if awaits == [] then [] else StepsOf(t, awaits[0]) + AllSteps(t, awaits[1..])
  }

  /** t waits in the shield for its thread, or has left it after the thread ended. */
  ghost predicate AtFrame(s: State, t: Tid, f: Frame) {
    && Inv(s) && PcOf(s, t).Holding? && PcOf(s, t).frame == f
    && (t in s.threads <==> f.Shielded?) && (f.Shielded? ==> !f.signal)
  }

  lemma {:induction false} RunAppend(s: State, first: seq<Step>, rest: seq<Step>)
    requires Inv(s)
    ensures Inv(Run(s, first)) && Run(s, first + rest) == Run(Run(s, first), rest)
    decreases |first|
  {
    RunKeeps(s, first);
    if first == [] {
      assert first + rest == rest;
    } else {
      assert (first + rest)[1..] == first[1..] + rest;
      StepKeeps(s, first[0]);
      RunAppend(if Enabled(s, first[0]) then Next(s, first[0]) else s, first[1..], rest);
    }
  }

  lemma StepKeeps(s: State, step: Step)
    requires Inv(s)
    ensures step.Enter? && step.key in s.locks ==> s.locks[step.key] in s.heap
    ensures Enabled(s, step) ==> Inv(Next(s, step))
  {
    NextDefined(s, step);
    if Enabled(s, step) { NextKeeps(s, step); }
  }

  /** The loop looks: with the thread at work it waits again, and otherwise it leaves. */
  lemma Looks(s: State, t: Tid, cancelled: bool, signal: bool)
    requires Inv(s) && PcOf(s, t).Holding? && PcOf(s, t).frame == Shielded(cancelled, signal)
    requires signal || t !in s.threads
    ensures AtFrame(Run(s, [Recheck(t)]), t, AfterAwait(cancelled, signal, t !in s.threads))
  {
    NextKeeps(s, Recheck(t));
    assert Run(s, [Recheck(t)]) == Run(Next(s, Recheck(t)), []);
  }

  lemma Ended(s: State, t: Tid, cancelled: bool, signal: bool)
    requires Inv(s) && PcOf(s, t).Holding? && PcOf(s, t).frame == Shielded(cancelled, signal) && t in s.threads
    ensures AtFrame(Run(s, [ThreadEnds(t), Recheck(t)]), t, AfterAwait(cancelled, signal, true))
  {
    RunStep(s, ThreadEnds(t), [Recheck(t)]);
    Looks(Next(s, ThreadEnds(t)), t, cancelled, signal);
    assert [ThreadEnds(t)] + [Recheck(t)] == [ThreadEnds(t), Recheck(t)];
  }

  lemma Interruption(s: State, t: Tid, f: Frame, done: bool)
    requires AtFrame(s, t, f) && f.Shielded?
    ensures AtFrame(Run(s, StepsOf(t, Interrupted(done))), t, AfterAwait(f.cancelled, true, done))
  {
    assert TaskOk(s, t);
    var rest := if done then [ThreadEnds(t), Recheck(t)] else [Recheck(t)];
    RunStep(s, Cancel(t), rest);
    assert StepsOf(t, Interrupted(done)) == [Cancel(t)] + rest;
    var s' := Next(s, Cancel(t));
    if done { Ended(s', t, f.cancelled, true); } else { Looks(s', t, f.cancelled, true); }
  }

  /** One await of the loop, as steps of the lock system. */
  lemma OneAwait(s: State, t: Tid, f: Frame, a: Await)
    requires AtFrame(s, t, f)
    ensures AtFrame(Run(s, StepsOf(t, a)), t, if f.InBody? then f else AfterAwait(f.cancelled, a.Interrupted?, Settles(a)))
  {
    if f.InBody? { InTheBody(s, t, f, a); }
    else if a.Woke? { Ended(s, t, f.cancelled, false); }
    else { Interruption(s, t, f, a.done); }
  }

  /** In the body none of these steps does anything. */
  lemma InTheBody(s: State, t: Tid, f: Frame, a: Await)
    requires AtFrame(s, t, f) && f.InBody?
    ensures AtFrame(Run(s, StepsOf(t, a)), t, f)
  {
    assert TaskOk(s, t);
    assert Next(s, Cancel(t)) == s && !Enabled(s, ThreadEnds(t)) && !Enabled(s, Recheck(t));
    assert Run(s, [Recheck(t)]) == s;
    assert Run(s, [ThreadEnds(t), Recheck(t)]) == s;
  }

  /** The steps the lock system takes for a sequence of awaits end where the verified loop ends: the two
      readings of finish_before_cancel agree. */
  lemma {:induction false} ShieldIsTheLoop(s: State, t: Tid, f: Frame, awaits: seq<Await>)
    requires AtFrame(s, t, f)
    ensures AtFrame(Run(s, AllSteps(t, awaits)), t, Through(f, awaits))
    decreases |awaits|
  {
    if awaits != [] {
      var s' := Run(s, StepsOf(t, awaits[0]));
      OneAwait(s, t, f, awaits[0]);
      RunAppend(s, StepsOf(t, awaits[0]), AllSteps(t, awaits[1..]));
      var f' := if f.InBody? then f else AfterAwait(f.cancelled, awaits[0].Interrupted?, Settles(awaits[0]));
      ShieldIsTheLoop(s', t, f', awaits[1..]);
    }
  }
}
