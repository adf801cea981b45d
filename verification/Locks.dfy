/** Per-repository locks in a dictionary whose entries come and go. Code between two awaits is one
    step; a lock is an asyncio.Lock with its queue of futures. */
module Locks {
  import opened Model

  type Key = string
  type Tid = nat
  type LockId = nat

  /** The future of a waiter. A woken task can still be cancelled before it runs. */
  datatype Future = Pending | Woken(cancelled: bool) | Cancelled
  datatype Waiter = Waiter(task: Tid, future: Future)

  /** A lock is locked while it has a holder. */
  datatype Lock = Lock(holder: Option<Tid>, queue: seq<Waiter>)

  /** Where the control of a holder stands: in the body of the lock, or at the shielded await inside
      finish_before_cancel, with the flag of that call and a cancellation not yet delivered. */
  datatype Frame = InBody(raised: bool) | Shielded(cancelled: bool, signal: bool)
  datatype Pc = Idle | Waiting(key: Key, lock: LockId) | Holding(key: Key, lock: LockId, frame: Frame)

  /** threads holds, for each task with a Git mutation running in a thread, the repository it works on.
      A thread runs on its own: nothing a task does stops it. */
  datatype State = State(
    locks: map<Key, LockId>, waiters: map<Key, nat>, active: set<Key>,
    heap: map<LockId, Lock>, nextLock: LockId, tasks: map<Tid, Pc>, threads: map<Tid, Key>)

  /** One pass of the loop in finish_before_cancel after its await has returned or raised: remember a
      cancellation, and leave only when the inner operation is done, raising what was remembered. */
  function AfterAwait(cancelled: bool, signal: bool, done: bool): Frame {
    if done then InBody(cancelled || signal) else Shielded(cancelled || signal, false)
  }

  // ---- asyncio.Lock --------------------------------------------------------------------

  /** _wake_up_first: nothing happens when the first future is already done. */
  function WakeFirst(l: Lock): Lock {
    if l.queue != [] && l.queue[0].future.Pending?
    then l.(queue := l.queue[0 := l.queue[0].(future := Woken(false))]) else l
  }

  /** acquire without waiting: unlocked, and no waiter is left but cancelled ones. */
  predicate FastPath(l: Lock) {
    l.holder.None? && forall i :: 0 <= i < |l.queue| ==> l.queue[i].future.Cancelled?
  }

  function Release(l: Lock): Lock {
    WakeFirst(l.(holder := None))
  }

  function IndexOf(queue: seq<Waiter>, t: Tid): (i: nat)
    ensures i <= |queue|
    ensures i < |queue| ==> queue[i].task == t
    ensures i == |queue| ==> forall k :: 0 <= k < |queue| ==> queue[k].task != t
  {
    if queue == [] || queue[0].task == t then 0 else 1 + IndexOf(queue[1..], t)
  }

  function Without(queue: seq<Waiter>, t: Tid): seq<Waiter> {
    var i := IndexOf(queue, t);
    if i < |queue| then queue[..i] + queue[i + 1..] else queue
  }

  function FutureOf(queue: seq<Waiter>, t: Tid): Future
    requires IndexOf(queue, t) < |queue|
  {
    queue[IndexOf(queue, t)].future
  }

  // ---- the steps of repo_lock ----------------------------------------------------------

  datatype Step =
    | Enter(t: Tid, key: Key)      // up to the first await, or straight into the body
    | Resume(t: Tid)               // a woken waiter takes the lock
    | Unwind(t: Tid)               // a cancelled waiter leaves
    | Cancel(t: Tid)               // task.cancel()
    | StartMutation(t: Tid)        // atomic_to_thread up to its await
    | ThreadEnds(t: Tid)           // the thread itself, at any time
    | Recheck(t: Tid)              // the await returned or raised: one pass of the loop
    | Exit(t: Tid)                 // the body ends, normally or by an exception

  function PcOf(s: State, t: Tid): Pc {
    if t in s.tasks then s.tasks[t] else Idle
  }

  predicate Enabled(s: State, step: Step) {
    match step
    case Enter(t, key) => PcOf(s, t).Idle?
    case Resume(t) =>
      && PcOf(s, t).Waiting? && PcOf(s, t).lock in s.heap
      && IndexOf(s.heap[PcOf(s, t).lock].queue, t) < |s.heap[PcOf(s, t).lock].queue|
      && FutureOf(s.heap[PcOf(s, t).lock].queue, t) == Woken(false)
    case Unwind(t) =>
      && PcOf(s, t).Waiting? && PcOf(s, t).lock in s.heap
      && IndexOf(s.heap[PcOf(s, t).lock].queue, t) < |s.heap[PcOf(s, t).lock].queue|
      && (FutureOf(s.heap[PcOf(s, t).lock].queue, t) == Woken(true)
          || FutureOf(s.heap[PcOf(s, t).lock].queue, t).Cancelled?)
    case Cancel(t) =>
      (PcOf(s, t).Waiting? || PcOf(s, t).Holding?) && PcOf(s, t).lock in s.heap
      && (PcOf(s, t).Waiting? ==>
            IndexOf(s.heap[PcOf(s, t).lock].queue, t) < |s.heap[PcOf(s, t).lock].queue|)
    case StartMutation(t) => PcOf(s, t).Holding? && PcOf(s, t).frame.InBody?
    case ThreadEnds(t) => t in s.threads
    case Recheck(t) => PcOf(s, t).Holding? && PcOf(s, t).frame.Shielded? && (PcOf(s, t).frame.signal || t !in s.threads)
    case Exit(t) => PcOf(s, t).Holding? && PcOf(s, t).frame.InBody? && PcOf(s, t).lock in s.heap
  }

  function CountOf(s: State, key: Key): nat {
    if key in s.waiters then s.waiters[key] else 0
  }

  /** setdefault: the lock of the entry, or a new one. */
  function Setdefault(s: State, key: Key): State {
    if key in s.locks then s
    else s.(locks := s.locks[key := s.nextLock], heap := s.heap[s.nextLock := Lock(None, [])], nextLock := s.nextLock + 1)
  }

  /** The outer finally: drop the count, and the entry with it when the lock is free. */
  function DropIdle(s: State, key: Key, lock: LockId): State
    requires lock in s.heap
  {
    if key in s.waiters && s.waiters[key] == 0 then
      var s1 := s.(waiters := s.waiters - {key});
      if s.heap[lock].holder.None? then s1.(locks := s1.locks - {key}) else s1
    else s
  }

  function Acquired(s: State, t: Tid, key: Key, lock: LockId): State
    requires lock in s.heap
  {
    s.(active := s.active + {key}, heap := s.heap[lock := s.heap[lock].(holder := Some(t))],
       tasks := s.tasks[t := Holding(key, lock, InBody(false))])
  }

  function EnterOf(s: State, t: Tid, key: Key): State
    requires key in s.locks ==> s.locks[key] in s.heap
  {
    var s1 := Setdefault(s, key);
    var lock := s1.locks[key];
    if FastPath(s1.heap[lock]) then Acquired(s1.(waiters := s1.waiters[key := CountOf(s1, key)]), t, key, lock)
    else
      var l := s1.heap[lock];
      s1.(waiters := s1.waiters[key := CountOf(s1, key) + 1],
          heap := s1.heap[lock := l.(queue := l.queue + [Waiter(t, Future.Pending)])],
          tasks := s1.tasks[t := Waiting(key, lock)])
  }

  function Less(n: nat): nat {
    if n > 0 then n - 1 else 0
  }

  function ResumeOf(s: State, t: Tid): State
    requires Enabled(s, Resume(t))
  {
    var key, lock := s.tasks[t].key, s.tasks[t].lock;
    var l := s.heap[lock];
    Acquired(s.(waiters := s.waiters[key := Less(CountOf(s, key))],
                heap := s.heap[lock := l.(queue := Without(l.queue, t))]), t, key, lock)
  }

  function UnwindOf(s: State, t: Tid): State
    requires Enabled(s, Unwind(t))
  {
    var key, lock := s.tasks[t].key, s.tasks[t].lock;
    var l := s.heap[lock].(queue := Without(s.heap[lock].queue, t));
    var l' := if l.holder.None? then WakeFirst(l) else l;
    DropIdle(s.(waiters := s.waiters[key := Less(CountOf(s, key))], heap := s.heap[lock := l'],
                tasks := s.tasks[t := Idle]), key, lock)
  }

  function CancelFuture(f: Future): Future {
    match f case Pending => Future.Cancelled case Woken(_) => Woken(true) case Cancelled => f
  }

  function SetFrame(s: State, t: Tid, f: Frame): State
    requires PcOf(s, t).Holding?
  {
    s.(tasks := s.tasks[t := s.tasks[t].(frame := f)])
  }

  function CancelOf(s: State, t: Tid): State
    requires Enabled(s, Cancel(t))
  {
    if s.tasks[t].Waiting? then
      var lock := s.tasks[t].lock;
      var l := s.heap[lock];
      var i := IndexOf(l.queue, t);
      s.(heap := s.heap[lock := l.(queue := l.queue[i := Waiter(t, CancelFuture(l.queue[i].future))])])
    else if s.tasks[t].frame.Shielded? then SetFrame(s, t, s.tasks[t].frame.(signal := true))
    else s
  }

  function ExitOf(s: State, t: Tid): State
    requires Enabled(s, Exit(t))
  {
    var key, lock := s.tasks[t].key, s.tasks[t].lock;
    DropIdle(s.(active := s.active - {key}, heap := s.heap[lock := Release(s.heap[lock])],
                tasks := s.tasks[t := Idle]), key, lock)
  }

  function Next(s: State, step: Step): State
    requires Enabled(s, step) && (step.Enter? && step.key in s.locks ==> s.locks[step.key] in s.heap)
  {
    match step
    case Enter(t, key) => EnterOf(s, t, key)
    case Resume(t) => ResumeOf(s, t)
    case Unwind(t) => UnwindOf(s, t)
    case Cancel(t) => CancelOf(s, t)
    case StartMutation(t) => SetFrame(s, t, Shielded(false, false)).(threads := s.threads[t := s.tasks[t].key])
    case ThreadEnds(t) => s.(threads := s.threads - {t})
    case Recheck(t) => SetFrame(s, t, AfterAwait(s.tasks[t].frame.cancelled, s.tasks[t].frame.signal, t !in s.threads))
    case Exit(t) => ExitOf(s, t)
  }

  // ---- the invariant -------------------------------------------------------------------

  /** No wakeup is lost: an unlocked lock with waiters has its first future done; only the first
      waiter of an unlocked lock is ever woken. */
  ghost predicate Alert(l: Lock) {
    && (l.holder.None? && l.queue != [] ==> !l.queue[0].future.Pending?)
    && (forall i :: 0 <= i < |l.queue| && l.queue[i].future.Woken? ==> i == 0 && l.holder.None?)
  }

  ghost predicate Queued(s: State, key: Key, lock: LockId, l: Lock) {
    && (forall i :: 0 <= i < |l.queue| ==> PcOf(s, l.queue[i].task) == Waiting(key, lock))
    && (forall i, k :: 0 <= i < k < |l.queue| ==> l.queue[i].task != l.queue[k].task)
  }

  ghost predicate KeyOk(s: State, key: Key) {
    if key in s.locks then
      && s.locks[key] in s.heap
      && var lock := s.locks[key]; var l := s.heap[lock];
      && (if key in s.waiters then s.waiters[key] == |l.queue| else l.queue == [])
      && (key in s.active <==> l.holder.Some?)
      && (l.holder.Some? ==> PcOf(s, l.holder.value).Holding?
                             && PcOf(s, l.holder.value).key == key && PcOf(s, l.holder.value).lock == lock)
      && Alert(l) && Queued(s, key, lock, l)
    else key !in s.waiters && key !in s.active
  }

  /** A task that waits or holds does so at the lock the dictionary has for its key. */
  ghost predicate TaskOk(s: State, t: Tid) {
    match PcOf(s, t)
    case Idle => true
    case Waiting(key, lock) =>
      && key in s.locks && s.locks[key] == lock && lock in s.heap
      && IndexOf(s.heap[lock].queue, t) < |s.heap[lock].queue|
    case Holding(key, lock, _) =>
      && key in s.locks && s.locks[key] == lock && lock in s.heap && s.heap[lock].holder == Some(t)
  }

  /** A running thread belongs to a task that holds the lock of its repository and waits in the shield. */
  ghost predicate ThreadOk(s: State, t: Tid) {
    t in s.threads ==> PcOf(s, t).Holding? && PcOf(s, t).key == s.threads[t] && PcOf(s, t).frame.Shielded?
  }

  ghost predicate Inv(s: State) {
    && (forall t :: ThreadOk(s, t))
    && (forall key :: KeyOk(s, key))
    && (forall t :: TaskOk(s, t))
    && (forall a, b :: a in s.locks && b in s.locks && s.locks[a] == s.locks[b] ==> a == b)
    && (forall a :: a in s.locks ==> s.locks[a] < s.nextLock)
    && (forall l :: l in s.heap ==> l < s.nextLock)
  }

  // ---- one step touches one key, one lock and one task ---------------------------------

  ghost predicate Elsewhere(s: State, s': State, key0: Key, lock0: LockId, t0: Tid) {
    && (forall t :: t != t0 ==> PcOf(s', t) == PcOf(s, t) && (t in s'.threads <==> t in s.threads))
    && (forall t :: t != t0 && t in s.threads ==> s'.threads[t] == s.threads[t])
    && (forall k :: k != key0 ==>
          && (k in s'.locks <==> k in s.locks) && (k in s.locks ==> s'.locks[k] == s.locks[k])
          && (k in s'.waiters <==> k in s.waiters) && (k in s.waiters ==> s'.waiters[k] == s.waiters[k])
          && (k in s'.active <==> k in s.active))
    && (forall l :: l != lock0 ==> (l in s'.heap <==> l in s.heap) && (l in s.heap ==> s'.heap[l] == s.heap[l]))
    && s.nextLock <= s'.nextLock
  }

  /** lock0 is the lock of key0, before or after, or new; t0 is engaged on no other key. */
  ghost predicate Touches(s: State, s': State, key0: Key, lock0: LockId, t0: Tid) {
    && (if key0 in s.locks then s.locks[key0] == lock0 else lock0 == s.nextLock < s'.nextLock)
    && (key0 in s'.locks ==> s'.locks[key0] == lock0)
    && (!PcOf(s, t0).Idle? ==> PcOf(s, t0).key == key0)
    && (!PcOf(s', t0).Idle? ==> PcOf(s', t0).key == key0)
    && Elsewhere(s, s', key0, lock0, t0)
  }

  lemma OtherKey(s: State, s': State, key0: Key, lock0: LockId, t0: Tid, key: Key)
    requires Inv(s) && Touches(s, s', key0, lock0, t0) && key != key0
    ensures KeyOk(s', key)
  {
    assert KeyOk(s, key);
    if key in s.locks {
      var lock := s.locks[key];
      assert lock != lock0;
      var l := s.heap[lock];
      assert s'.heap[lock] == l;
      forall i | 0 <= i < |l.queue| ensures PcOf(s', l.queue[i].task) == Waiting(key, lock) {
        assert l.queue[i].task != t0;
      }
    }
  }

  lemma OtherTask(s: State, s': State, key0: Key, lock0: LockId, t0: Tid, t: Tid)
    requires Inv(s) && Touches(s, s', key0, lock0, t0) && t != t0
    requires PcOf(s, t).Idle? || PcOf(s, t).key != key0
    ensures TaskOk(s', t)
  {
    assert TaskOk(s, t);
  }

  /** What is left to show of a step: its key, and the tasks engaged on that key. */
  lemma Rebuilt(s: State, s': State, key0: Key, lock0: LockId, t0: Tid)
    requires Inv(s) && Touches(s, s', key0, lock0, t0)
    requires KeyOk(s', key0) && TaskOk(s', t0)
    requires forall t :: t != t0 && !PcOf(s, t).Idle? && PcOf(s, t).key == key0 ==> TaskOk(s', t)
    requires lock0 in s'.heap ==> lock0 < s'.nextLock
    requires ThreadOk(s', t0)
    ensures Inv(s')
  {
    forall t ensures ThreadOk(s', t) {
      if t != t0 { assert ThreadOk(s, t); }
    }
    forall key ensures KeyOk(s', key) {
      if key != key0 { OtherKey(s, s', key0, lock0, t0, key); }
    }
    forall t ensures TaskOk(s', t) {
      if t != t0 && (PcOf(s, t).Idle? || PcOf(s, t).key != key0) { OtherTask(s, s', key0, lock0, t0, t); }
    }
  }

  // ---- every step keeps the invariant --------------------------------------------------

  predicate InQueue(q: seq<Waiter>, t: Tid) {
    exists i :: 0 <= i < |q| && q[i].task == t
  }

  lemma FoundInQueue(q: seq<Waiter>, t: Tid)
    ensures InQueue(q, t) <==> IndexOf(q, t) < |q|
  {
  }

  ghost predicate Distinct(q: seq<Waiter>) {
    forall i, k :: 0 <= i < k < |q| ==> q[i].task != q[k].task
  }

  lemma WithoutAt(q: seq<Waiter>, t: Tid)
    requires Distinct(q) && IndexOf(q, t) < |q|
    ensures |Without(q, t)| == |q| - 1
    ensures forall k :: 0 <= k < |Without(q, t)| ==>
              Without(q, t)[k] == q[if k < IndexOf(q, t) then k else k + 1] && Without(q, t)[k].task != t
  {
    var i, w := IndexOf(q, t), Without(q, t);
    assert |q[..i]| == i && |q[i + 1..]| == |q| - i - 1;
    forall k | 0 <= k < |w| ensures w[k] == q[if k < i then k else k + 1] && w[k].task != t {
      if k < i {
        assert w[k] == q[..i][k];
      } else {
        assert w[k] == q[i + 1..][k - i];
      }
    }
  }

  lemma WithoutTask(q: seq<Waiter>, t: Tid)
    requires Distinct(q) && IndexOf(q, t) < |q|
    ensures var i := IndexOf(q, t);
      Without(q, t) == q[..i] + q[i + 1..] && |Without(q, t)| == |q| - 1 && Distinct(Without(q, t))
    ensures forall u :: u != t && InQueue(q, u) ==> InQueue(Without(q, t), u)
    ensures forall k :: 0 <= k < |Without(q, t)| ==>
              Without(q, t)[k] == q[if k < IndexOf(q, t) then k else k + 1] && Without(q, t)[k].task != t
  {
    WithoutAt(q, t);
    var i, w := IndexOf(q, t), Without(q, t);
    forall u | u != t && InQueue(q, u) ensures InQueue(w, u) {
      var k :| 0 <= k < |q| && q[k].task == u;
      if k < i { assert w[k] == q[k]; } else { assert w[k - 1] == q[k]; }
    }
  }

  /** The tasks engaged on a key, other than t0: the waiters still queue, and the holder still holds. */
  ghost predicate Stay(l: Lock, l': Lock, t0: Tid) {
    && (forall u :: u != t0 && InQueue(l.queue, u) ==> InQueue(l'.queue, u))
    && (l.holder.Some? && l.holder != Some(t0) ==> l'.holder == l.holder)
  }

  lemma KeyTasks(s: State, s': State, key: Key, lock: LockId, t0: Tid, t: Tid)
    requires TaskOk(s, t) && key in s.locks && s.locks[key] == lock && lock in s.heap && Elsewhere(s, s', key, lock, t0)
    requires key in s'.locks && s'.locks[key] == lock && lock in s'.heap
    requires Stay(s.heap[lock], s'.heap[lock], t0)
    requires t != t0 && !PcOf(s, t).Idle? && PcOf(s, t).key == key
    ensures TaskOk(s', t)
  {
    FoundInQueue(s.heap[lock].queue, t);
    FoundInQueue(s'.heap[lock].queue, t);
  }

  /** A step on a key that keeps its entry. */
  ghost predicate Local(s: State, s': State, key: Key, lock: LockId, t: Tid) {
    && key in s.locks && s.locks[key] == lock && lock in s.heap
    && key in s'.locks && s'.locks[key] == lock && lock in s'.heap
    && (!PcOf(s, t).Idle? ==> PcOf(s, t).key == key)
    && (!PcOf(s', t).Idle? ==> PcOf(s', t).key == key)
    && Elsewhere(s, s', key, lock, t)
    && Stay(s.heap[lock], s'.heap[lock], t)
    && KeyOk(s', key) && TaskOk(s', t) && ThreadOk(s', t)
  }

  lemma LocalKeeps(s: State, s': State, key: Key, lock: LockId, t: Tid)
    requires Inv(s) && Local(s, s', key, lock, t)
    ensures Inv(s')
  {
    forall u | u != t && !PcOf(s, u).Idle? && PcOf(s, u).key == key ensures TaskOk(s', u) {
      assert TaskOk(s, u);
      KeyTasks(s, s', key, lock, t, u);
    }
    Rebuilt(s, s', key, lock, t);
  }

  lemma EnterFast(s: State, t: Tid, key: Key)
    requires ThreadOk(s, t) && key in s.locks && KeyOk(s, key) && PcOf(s, t).Idle? && FastPath(s.heap[s.locks[key]])
    ensures Local(s, EnterOf(s, t, key), key, s.locks[key], t)
  {
  }

  lemma Appended(q: seq<Waiter>, t: Tid)
    ensures var q' := q + [Waiter(t, Future.Pending)];
      InQueue(q', t) && forall u :: InQueue(q, u) ==> InQueue(q', u)
  {
    var q' := q + [Waiter(t, Future.Pending)];
    assert q'[|q|].task == t;
    forall u | InQueue(q, u) ensures InQueue(q', u) {
      var k :| 0 <= k < |q| && q[k].task == u;
      assert q'[k].task == u;
    }
  }

  lemma EnterSlow(s: State, t: Tid, key: Key)
    requires ThreadOk(s, t) && key in s.locks && KeyOk(s, key) && PcOf(s, t).Idle? && !FastPath(s.heap[s.locks[key]])
    ensures Local(s, EnterOf(s, t, key), key, s.locks[key], t)
  {
    var lock := s.locks[key];
    var l, s' := s.heap[lock], EnterOf(s, t, key);
    var q := l.queue + [Waiter(t, Future.Pending)];
    assert s'.heap[lock] == l.(queue := q);
    Appended(l.queue, t);
    FoundInQueue(q, t);
    assert Queued(s', key, lock, s'.heap[lock]) by {
      assert forall i :: 0 <= i < |l.queue| ==> q[i] == l.queue[i] && q[i].task != t;
    }
  }

  lemma EnterKeeps(s: State, t: Tid, key: Key)
    requires Inv(s) && Enabled(s, Enter(t, key))
    ensures key in s.locks ==> s.locks[key] in s.heap
    ensures Inv(EnterOf(s, t, key))
  {
    assert KeyOk(s, key);
    var s1 := Setdefault(s, key);
    var lock := s1.locks[key];
    SetdefaultKeeps(s, key);
    assert KeyOk(s1, key);
    assert EnterOf(s, t, key) == EnterOf(s1, t, key);
    if FastPath(s1.heap[lock]) { EnterFast(s1, t, key); } else { EnterSlow(s1, t, key); }
    LocalKeeps(s1, EnterOf(s1, t, key), key, lock, t);
  }

  lemma SetdefaultKeeps(s: State, key: Key)
    requires Inv(s)
    ensures Inv(Setdefault(s, key)) && key in Setdefault(s, key).locks
  {
    assert KeyOk(s, key);
    var s' := Setdefault(s, key);
    forall k ensures KeyOk(s', k) { SetdefaultKey(s, key, k); }
    forall t ensures TaskOk(s', t) && ThreadOk(s', t) { SetdefaultTask(s, key, t); }
  }

  lemma SetdefaultKey(s: State, key: Key, k: Key)
    requires Inv(s)
    ensures KeyOk(Setdefault(s, key), k)
  {
    assert KeyOk(s, k);
  }

  lemma SetdefaultTask(s: State, key: Key, t: Tid)
    requires Inv(s)
    ensures TaskOk(Setdefault(s, key), t) && ThreadOk(Setdefault(s, key), t)
  {
    assert TaskOk(s, t) && ThreadOk(s, t);
  }

  lemma ResumeLocal(s: State, t: Tid)
    requires Enabled(s, Resume(t)) && ThreadOk(s, t) && TaskOk(s, t) && KeyOk(s, s.tasks[t].key)
    ensures Local(s, ResumeOf(s, t), s.tasks[t].key, s.tasks[t].lock, t)
  {
    var lock := s.tasks[t].lock;
    var l := s.heap[lock];
    WithoutTask(l.queue, t);
    assert IndexOf(l.queue, t) == 0 && l.holder.None?;
    assert ResumeOf(s, t).heap[lock] == Lock(Some(t), Without(l.queue, t));
  }

  lemma WakeFirstAlert(l: Lock)
    requires forall i :: 0 <= i < |l.queue| && l.queue[i].future.Woken? ==> i == 0
    requires l.holder.None?
    ensures Alert(WakeFirst(l)) && WakeFirst(l).holder == l.holder && |WakeFirst(l).queue| == |l.queue|
    ensures forall i :: 0 <= i < |l.queue| ==> WakeFirst(l).queue[i].task == l.queue[i].task
    ensures forall u :: InQueue(l.queue, u) ==> InQueue(WakeFirst(l).queue, u)
  {
    forall u | InQueue(l.queue, u) ensures InQueue(WakeFirst(l).queue, u) {
      var k :| 0 <= k < |l.queue| && l.queue[k].task == u;
      assert WakeFirst(l).queue[k].task == u;
    }
  }

  /** The lock after a cancelled waiter has left. */
  function Left(l: Lock, t: Tid): Lock {
    var l1 := l.(queue := Without(l.queue, t));
    if l1.holder.None? then WakeFirst(l1) else l1
  }

  lemma LeftAlert(l: Lock, t: Tid)
    requires Alert(l) && Distinct(l.queue) && IndexOf(l.queue, t) < |l.queue|
    ensures Alert(Left(l, t)) && Left(l, t).holder == l.holder && |Left(l, t).queue| == |l.queue| - 1
    ensures forall u :: u != t && InQueue(l.queue, u) ==> InQueue(Left(l, t).queue, u)
    ensures forall k :: 0 <= k < |l.queue| - 1 ==>
              Left(l, t).queue[k].task == l.queue[if k < IndexOf(l.queue, t) then k else k + 1].task
  {
    WithoutTask(l.queue, t);
    var l1 := l.(queue := Without(l.queue, t));
    if l1.holder.None? { WakeFirstAlert(l1); }
  }

  /** What remains when t leaves its key with the lock as l'. */
  function LeaveOf(s: State, t: Tid, l': Lock, active': set<Key>): State
    requires !PcOf(s, t).Idle?
  {
    var key, lock := s.tasks[t].key, s.tasks[t].lock;
    DropIdle(s.(waiters := if s.tasks[t].Waiting? then s.waiters[key := Less(CountOf(s, key))] else s.waiters,
                active := active', heap := s.heap[lock := l'], tasks := s.tasks[t := Idle]), key, lock)
  }

  lemma LeaveLocal(s: State, t: Tid, l': Lock, active': set<Key>)
    requires !PcOf(s, t).Idle? && TaskOk(s, t) && KeyOk(s, s.tasks[t].key)
    requires var l := s.heap[s.tasks[t].lock];
      && Alert(l') && Stay(l, l', t)
      && (if s.tasks[t].Waiting? then |l'.queue| == |l.queue| - 1 && l'.holder == l.holder
          else |l'.queue| == |l.queue| && l'.holder.None?)
      && Distinct(l'.queue)
      && (forall i :: 0 <= i < |l'.queue| ==> l'.queue[i].task != t && InQueue(l.queue, l'.queue[i].task))
    requires active' == if l'.holder.Some? then s.active else s.active - {s.tasks[t].key}
    ensures var s', key, lock := LeaveOf(s, t, l', active'), s.tasks[t].key, s.tasks[t].lock;
      && Elsewhere(s, s', key, lock, t) && KeyOk(s', key) && PcOf(s', t).Idle? && lock in s'.heap
      && s'.heap[lock] == l' && (key in s'.locks ==> s'.locks[key] == lock)
      && (key !in s'.locks ==> l'.queue == [] && l'.holder.None?)
  {
    var s', key, lock := LeaveOf(s, t, l', active'), s.tasks[t].key, s.tasks[t].lock;
    assert Queued(s', key, lock, l') by {
      forall i | 0 <= i < |l'.queue| ensures PcOf(s', l'.queue[i].task) == Waiting(key, lock) {
        assert InQueue(s.heap[lock].queue, l'.queue[i].task);
      }
    }
  }

  lemma LeaveKeeps(s: State, t: Tid, l': Lock, active': set<Key>)
    requires Inv(s) && !PcOf(s, t).Idle? && t !in s.threads
    requires s.tasks[t].lock in s.heap
    requires var l := s.heap[s.tasks[t].lock];
      && Alert(l') && Stay(l, l', t)
      && (if s.tasks[t].Waiting? then |l'.queue| == |l.queue| - 1 && l'.holder == l.holder
          else |l'.queue| == |l.queue| && l'.holder.None?)
      && Distinct(l'.queue)
      && (forall i :: 0 <= i < |l'.queue| ==> l'.queue[i].task != t && InQueue(l.queue, l'.queue[i].task))
    requires active' == if l'.holder.Some? then s.active else s.active - {s.tasks[t].key}
    ensures Inv(LeaveOf(s, t, l', active'))
  {
    var s', key, lock := LeaveOf(s, t, l', active'), s.tasks[t].key, s.tasks[t].lock;
    assert TaskOk(s, t) && KeyOk(s, key);
    LeaveLocal(s, t, l', active');
    if key in s'.locks {
      LocalKeeps(s, s', key, lock, t);
    } else {
      forall u | u != t ensures PcOf(s, u).Idle? || PcOf(s, u).key != key {
        assert TaskOk(s, u);
        FoundInQueue(s.heap[lock].queue, u);
      }
      Rebuilt(s, s', key, lock, t);
    }
  }

  lemma UnwindKeeps(s: State, t: Tid)
    requires Inv(s) && Enabled(s, Unwind(t))
    ensures Inv(UnwindOf(s, t))
  {
    assert ThreadOk(s, t) && TaskOk(s, t) && KeyOk(s, s.tasks[t].key);
    var l := s.heap[s.tasks[t].lock];
    LeftAlert(l, t);
    LeftTasks(l, t);
    assert UnwindOf(s, t) == LeaveOf(s, t, Left(l, t), s.active);
    LeaveKeeps(s, t, Left(l, t), s.active);
  }

  lemma LeftTasks(l: Lock, t: Tid)
    requires Alert(l) && Distinct(l.queue) && IndexOf(l.queue, t) < |l.queue|
    ensures var q := Left(l, t).queue;
      Distinct(q) && forall i :: 0 <= i < |q| ==> q[i].task != t && InQueue(l.queue, q[i].task)
  {
    LeftAlert(l, t);
    var q, n := Left(l, t).queue, IndexOf(l.queue, t);
    forall i | 0 <= i < |q| ensures q[i].task != t && InQueue(l.queue, q[i].task) {
      assert q[i].task == l.queue[if i < n then i else i + 1].task;
    }
    forall i, k | 0 <= i < k < |q| ensures q[i].task != q[k].task {
      assert q[i].task == l.queue[if i < n then i else i + 1].task;
      assert q[k].task == l.queue[if k < n then k else k + 1].task;
    }
  }

  lemma ExitKeeps(s: State, t: Tid)
    requires Inv(s) && Enabled(s, Exit(t))
    ensures Inv(ExitOf(s, t))
  {
    assert ThreadOk(s, t) && TaskOk(s, t) && KeyOk(s, s.tasks[t].key);
    var l := s.heap[s.tasks[t].lock];
    var freed := l.(holder := None);
    WakeFirstAlert(freed);
    var l' := Release(l);
    forall i | 0 <= i < |l'.queue| ensures l'.queue[i].task != t && InQueue(l.queue, l'.queue[i].task) {
      assert l'.queue[i].task == l.queue[i].task;
    }
    assert ExitOf(s, t) == LeaveOf(s, t, l', s.active - {s.tasks[t].key});
    LeaveKeeps(s, t, l', s.active - {s.tasks[t].key});
  }

  lemma CancelLocal(s: State, t: Tid)
    requires Enabled(s, Cancel(t)) && ThreadOk(s, t) && TaskOk(s, t) && KeyOk(s, s.tasks[t].key)
    ensures Local(s, CancelOf(s, t), s.tasks[t].key, s.tasks[t].lock, t)
  {
    if s.tasks[t].Waiting? {
      var lock := s.tasks[t].lock;
      var q, q' := s.heap[lock].queue, CancelOf(s, t).heap[lock].queue;
      assert forall i :: 0 <= i < |q| ==> q'[i].task == q[i].task;
      forall u | InQueue(q, u) ensures InQueue(q', u) {
        var k :| 0 <= k < |q| && q[k].task == u;
        assert q'[k].task == u;
      }
      assert InQueue(q, t) && InQueue(q', t);
      FoundInQueue(q', t);
    }
  }

  /** Steps that change where a holder stands in its body, and its thread. */
  lemma FrameLocal(s: State, t: Tid, f: Frame, threads': map<Tid, Key>)
    requires PcOf(s, t).Holding? && TaskOk(s, t) && KeyOk(s, s.tasks[t].key)
    requires forall u :: u != t ==> (u in threads' <==> u in s.threads) && (u in s.threads ==> threads'[u] == s.threads[u])
    requires t in threads' ==> threads'[t] == s.tasks[t].key && f.Shielded?
    ensures Local(s, SetFrame(s, t, f).(threads := threads'), s.tasks[t].key, s.tasks[t].lock, t)
  {
  }

  lemma FrameKeeps(s: State, t: Tid, f: Frame, threads': map<Tid, Key>)
    requires Inv(s) && PcOf(s, t).Holding?
    requires forall u :: u != t ==> (u in threads' <==> u in s.threads) && (u in s.threads ==> threads'[u] == s.threads[u])
    requires t in threads' ==> threads'[t] == s.tasks[t].key && f.Shielded?
    ensures Inv(SetFrame(s, t, f).(threads := threads'))
  {
    assert TaskOk(s, t) && KeyOk(s, s.tasks[t].key);
    FrameLocal(s, t, f, threads');
    LocalKeeps(s, SetFrame(s, t, f).(threads := threads'), s.tasks[t].key, s.tasks[t].lock, t);
  }

  /** The end of a thread changes nothing but that it no longer runs. */
  lemma ThreadEndKeeps(s: State, t: Tid)
    requires Inv(s) && t in s.threads
    ensures Inv(s.(threads := s.threads - {t}))
  {
    assert ThreadOk(s, t);
    var f := s.tasks[t].frame;
    FrameKeeps(s, t, f, s.threads - {t});
    assert s.tasks[t := s.tasks[t].(frame := f)] == s.tasks;
  }

  /** The precondition of a step holds in every state of the invariant. */
  lemma NextDefined(s: State, step: Step)
    requires Inv(s)
    ensures step.Enter? && step.key in s.locks ==> s.locks[step.key] in s.heap
  {
    if step.Enter? { assert KeyOk(s, step.key); }
  }

  lemma RecheckKeeps(s: State, t: Tid)
    requires Inv(s) && Enabled(s, Recheck(t))
    ensures Inv(Next(s, Recheck(t)))
  {
    var f := AfterAwait(s.tasks[t].frame.cancelled, s.tasks[t].frame.signal, t !in s.threads);
    assert ThreadOk(s, t);
    FrameKeeps(s, t, f, s.threads);
    assert SetFrame(s, t, f).(threads := s.threads) == SetFrame(s, t, f);
  }

  lemma NextKeeps(s: State, step: Step)
    requires Inv(s) && Enabled(s, step)
    ensures step.Enter? && step.key in s.locks ==> s.locks[step.key] in s.heap
    ensures Inv(Next(s, step))
  {
    NextDefined(s, step);
    match step
    case Enter(t, key) => EnterKeeps(s, t, key);
    case Resume(t) => assert ThreadOk(s, t) && TaskOk(s, t) && KeyOk(s, s.tasks[t].key);
      ResumeLocal(s, t);
      LocalKeeps(s, ResumeOf(s, t), s.tasks[t].key, s.tasks[t].lock, t);
    case Unwind(t) => UnwindKeeps(s, t);
    case Cancel(t) => assert ThreadOk(s, t) && TaskOk(s, t) && KeyOk(s, s.tasks[t].key);
      CancelLocal(s, t);
      LocalKeeps(s, CancelOf(s, t), s.tasks[t].key, s.tasks[t].lock, t);
    case StartMutation(t) => FrameKeeps(s, t, Shielded(false, false), s.threads[t := s.tasks[t].key]);
    case ThreadEnds(t) => ThreadEndKeeps(s, t);
    case Recheck(t) => RecheckKeeps(s, t);
    case Exit(t) => ExitKeeps(s, t);
  }

  // ---- runs ----------------------------------------------------------------------------

  const START := State(map[], map[], {}, map[], 0, map[], map[])

  lemma StartOk()
    ensures Inv(START)
  {
    forall key ensures KeyOk(START, key) {}
    forall t ensures TaskOk(START, t) && ThreadOk(START, t) {}
  }

  /** Steps that are not enabled do nothing. */
  ghost function Run(s: State, steps: seq<Step>): State
    requires Inv(s)
    decreases |steps|
  {
    if steps == [] then s
    else if Enabled(s, steps[0]) then
      NextKeeps(s, steps[0]);
      Run(Next(s, steps[0]), steps[1..])
    else Run(s, steps[1..])
  }

  lemma {:induction false} RunKeeps(s: State, steps: seq<Step>)
    requires Inv(s)
    ensures Inv(Run(s, steps))
    decreases |steps|
  {
    if steps != [] {
      if Enabled(s, steps[0]) {
        NextKeeps(s, steps[0]);
        RunKeeps(Next(s, steps[0]), steps[1..]);
      } else {
        RunKeeps(s, steps[1..]);
      }
    }
  }

  ghost predicate Reachable(s: State) {
    exists steps: seq<Step> :: (StartOk(); Run(START, steps)) == s
  }

  // ---- what it means -------------------------------------------------------------------

  predicate Engaged(s: State, t: Tid, key: Key) {
    !PcOf(s, t).Idle? && PcOf(s, t).key == key
  }

  lemma ReachableInv(s: State)
    requires Reachable(s)
    ensures Inv(s)
  {
    StartOk();
    var steps: seq<Step> :| Run(START, steps) == s;
    RunKeeps(START, steps);
  }

  /** At most one task holds a repository's lock, so at most one runs a mutation on it. */
  lemma MutualExclusion(s: State, a: Tid, b: Tid)
    requires Reachable(s)
    requires PcOf(s, a).Holding? && PcOf(s, b).Holding? && PcOf(s, a).key == PcOf(s, b).key
    ensures a == b
  {
    ReachableInv(s);
    assert TaskOk(s, a) && TaskOk(s, b);
  }

  /** While a task waits on or holds the lock of a key, no step changes the entry of that key. */
  lemma EntryStable(s: State, step: Step, t: Tid, key: Key)
    requires Reachable(s) && Inv(s) && Enabled(s, step)
    requires step.Enter? && step.key in s.locks ==> s.locks[step.key] in s.heap
    requires Engaged(s, t, key) && Engaged(Next(s, step), t, key)
    ensures key in s.locks && key in Next(s, step).locks && Next(s, step).locks[key] == s.locks[key]
  {
    NextKeeps(s, step);
    assert TaskOk(s, t) && TaskOk(Next(s, step), t);
    assert PcOf(Next(s, step), t).lock == PcOf(s, t).lock;
  }

  /** The body of a lock is never left while its thread still works: no guard asks for that, it follows
      from where the loop of finish_before_cancel lets control go. */
  lemma BodyLeavesAfterThread(s: State, t: Tid)
    requires Reachable(s) && Enabled(s, Exit(t))
    ensures t !in s.threads
  {
    ReachableInv(s);
    assert ThreadOk(s, t);
  }

  /** Mutations of one repository never overlap, and while one runs its task holds the lock. */
  lemma MutationsNeverOverlap(s: State, a: Tid, b: Tid)
    requires Reachable(s) && a in s.threads && b in s.threads && s.threads[a] == s.threads[b]
    ensures a == b && PcOf(s, a).Holding? && PcOf(s, a).key == s.threads[a]
  {
    ReachableInv(s);
    assert ThreadOk(s, a) && ThreadOk(s, b);
    MutualExclusion(s, a, b);
  }

  /** Through any number of cancellations and other steps, until the thread itself ends: its task stays in
      the shield with the lock, and nobody else holds it. */
  lemma {:induction false} MutationFinishesFirst(s: State, t: Tid, steps: seq<Step>)
    requires Inv(s) && t in s.threads && ThreadEnds(t) !in steps
    ensures var s' := Run(s, steps);
      && t in s'.threads && s'.threads[t] == s.threads[t]
      && PcOf(s', t).Holding? && PcOf(s', t).key == s.threads[t] && PcOf(s', t).frame.Shielded?
      && forall u :: PcOf(s', u).Holding? && PcOf(s', u).key == s.threads[t] ==> u == t
    decreases |steps|
  {
    assert ThreadOk(s, t);
    if steps == [] {
      assert TaskOk(s, t);
      forall u | PcOf(s, u).Holding? && PcOf(s, u).key == s.threads[t] ensures u == t { assert TaskOk(s, u); }
    } else if Enabled(s, steps[0]) {
      NextKeeps(s, steps[0]);
      assert steps[0] in steps;
      ThreadSurvives(s, t, steps[0]);
      MutationFinishesFirst(Next(s, steps[0]), t, steps[1..]);
    } else {
      MutationFinishesFirst(s, t, steps[1..]);
    }
  }

  /** No step but its own end stops a thread. */
  lemma ThreadSurvives(s: State, t: Tid, step: Step)
    requires Inv(s) && Enabled(s, step) && t in s.threads && step != ThreadEnds(t)
    requires step.Enter? && step.key in s.locks ==> s.locks[step.key] in s.heap
    ensures t in Next(s, step).threads && Next(s, step).threads[t] == s.threads[t]
  {
    assert ThreadOk(s, t);
  }

  /** A cancellation that reached the shield is never lost: it is carried until the helper leaves, and
      then it is raised. */
  ghost predicate CarriesCancellation(pc: Pc) {
    pc.Holding? && pc.frame.Shielded? && (pc.frame.cancelled || pc.frame.signal)
  }

  lemma CancellationIsRaised(s: State, t: Tid, step: Step)
    requires Inv(s) && Enabled(s, step) && (step.Enter? && step.key in s.locks ==> s.locks[step.key] in s.heap)
    requires CarriesCancellation(PcOf(s, t)) || (step == Cancel(t) && PcOf(s, t).Holding? && PcOf(s, t).frame.Shielded?)
    ensures var pc := PcOf(Next(s, step), t);
      CarriesCancellation(pc) || (step == Recheck(t) && pc.Holding? && pc.frame == InBody(true))
  {
  }

  /** Steps that end a wait or a hold. */
  predicate Moves(step: Step, t: Tid) {
    step in {Resume(t), Unwind(t), ThreadEnds(t), Recheck(t), Exit(t)}
  }

  /** No wakeup is lost: while anyone waits on or holds a key, a task engaged on it can move. */
  lemma SomeoneMoves(s: State, t: Tid, key: Key)
    requires Reachable(s) && Engaged(s, t, key)
    ensures exists u, step :: Engaged(s, u, key) && Moves(step, u) && Enabled(s, step)
  {
    ReachableInv(s);
    assert TaskOk(s, t) && KeyOk(s, key);
    var l := s.heap[s.locks[key]];
    if l.holder.Some? {
      var u := l.holder.value;
      assert TaskOk(s, u);
      var step := if PcOf(s, u).frame.InBody? then Exit(u) else if u in s.threads then ThreadEnds(u) else Recheck(u);
      assert Engaged(s, u, key) && Moves(step, u) && Enabled(s, step);
    } else {
      assert l.queue != [];
      var u := l.queue[0].task;
      assert PcOf(s, u) == Waiting(key, s.locks[key]);
      assert IndexOf(l.queue, u) == 0;
      var step := if l.queue[0].future == Woken(false) then Resume(u) else Unwind(u);
      assert Engaged(s, u, key) && Moves(step, u) && Enabled(s, step);
    }
  }

  /** Counts and activity agree with the tasks: an entry without a count has no waiter. */
  lemma CountsAgree(s: State, key: Key)
    requires Reachable(s) && key in s.locks
    ensures s.locks[key] in s.heap
    ensures CountOf(s, key) == |s.heap[s.locks[key]].queue|
    ensures key in s.active <==> exists t :: PcOf(s, t).Holding? && PcOf(s, t).key == key
  {
    ReachableInv(s);
    assert KeyOk(s, key);
    forall t | PcOf(s, t).Holding? && PcOf(s, t).key == key ensures key in s.active { assert TaskOk(s, t); }
    if key in s.active {
      var t := s.heap[s.locks[key]].holder.value;
      assert PcOf(s, t).Holding? && PcOf(s, t).key == key;
    }
  }

  /** The end of a hold drops the entry exactly when a count of zero is still there for the key. */
  lemma EntryDropped(s: State, t: Tid)
    requires Reachable(s) && Enabled(s, Exit(t))
    ensures var key := s.tasks[t].key;
      key !in ExitOf(s, t).locks <==> key in s.waiters && s.waiters[key] == 0
  {
    ReachableInv(s);
    assert TaskOk(s, t) && KeyOk(s, s.tasks[t].key);
  }

  // A run after which an idle entry stays: task 0 holds k, task 1 queues behind it and is cancelled.
  const HELD := Holding("repo", 0, InBody(false))
  const S1 := State(map["repo" := 0], map["repo" := 0], {"repo"}, map[0 := Lock(Some(0), [])], 1, map[0 := HELD], map[])
  const S2 := State(map["repo" := 0], map["repo" := 1], {"repo"},
                    map[0 := Lock(Some(0), [Waiter(1, Future.Pending)])], 1, map[0 := HELD, 1 := Waiting("repo", 0)], map[])
  const S3 := S2.(heap := map[0 := Lock(Some(0), [Waiter(1, Future.Cancelled)])])
  const S4 := State(map["repo" := 0], map[], {"repo"}, map[0 := Lock(Some(0), [])], 1, map[0 := HELD, 1 := Idle], map[])
  const S5 := State(map["repo" := 0], map[], {}, map[0 := Lock(None, [])], 1, map[0 := Idle, 1 := Idle], map[])

  lemma FirstHolds()
    ensures Next(START, Enter(0, "repo")) == S1
  {
  }

  lemma SecondWaits()
    ensures Next(S1, Enter(1, "repo")) == S2
  {
    var s' := EnterOf(S1, 1, "repo");
    assert [] + [Waiter(1, Future.Pending)] == [Waiter(1, Future.Pending)];
    assert s'.heap == S2.heap && s'.tasks == S2.tasks && s'.waiters == S2.waiters;
  }

  lemma SecondCancelled()
    ensures Enabled(S2, Cancel(1)) && Next(S2, Cancel(1)) == S3
  {
    assert S2.heap[0].queue[0].task == 1;
    var s' := CancelOf(S2, 1);
    assert [Waiter(1, Future.Pending)][0 := Waiter(1, Future.Cancelled)] == [Waiter(1, Future.Cancelled)];
    assert s'.heap == S3.heap;
  }

  lemma SecondLeaves()
    ensures Enabled(S3, Unwind(1)) && Next(S3, Unwind(1)) == S4
  {
    assert S3.heap[0].queue[0].task == 1;
    assert Without(S3.heap[0].queue, 1) == [];
    var s' := UnwindOf(S3, 1);
    assert s'.heap == S4.heap && s'.tasks == S4.tasks && s'.waiters == S4.waiters;
  }

  lemma FirstLeaves()
    ensures Enabled(S4, Exit(0)) && Next(S4, Exit(0)) == S5
  {
    var s' := ExitOf(S4, 0);
    assert s'.heap == S5.heap && s'.tasks == S5.tasks && s'.active == S5.active;
  }

  lemma RunStep(s: State, step: Step, rest: seq<Step>)
    requires Inv(s) && Enabled(s, step)
    ensures step.Enter? && step.key in s.locks ==> s.locks[step.key] in s.heap
    ensures Inv(Next(s, step)) && Run(s, [step] + rest) == Run(Next(s, step), rest)
  {
    NextKeeps(s, step);
    assert ([step] + rest)[1..] == rest;
  }

  lemma RunFrom4()
    requires Inv(S4)
    ensures Run(S4, [Exit(0)]) == S5
  {
    FirstLeaves();
    RunStep(S4, Exit(0), []);
    assert [Exit(0)] + [] == [Exit(0)];
  }

  lemma RunFrom3()
    requires Inv(S3)
    ensures Run(S3, [Unwind(1)] + [Exit(0)]) == S5
  {
    SecondLeaves();
    RunStep(S3, Unwind(1), [Exit(0)]);
    RunFrom4();
  }

  lemma RunFrom2()
    requires Inv(S2)
    ensures Run(S2, [Cancel(1)] + ([Unwind(1)] + [Exit(0)])) == S5
  {
    SecondCancelled();
    RunStep(S2, Cancel(1), [Unwind(1)] + [Exit(0)]);
    RunFrom3();
  }

  lemma RunFrom1()
    requires Inv(S1)
    ensures Run(S1, [Enter(1, "repo")] + ([Cancel(1)] + ([Unwind(1)] + [Exit(0)]))) == S5
  {
    SecondWaits();
    RunStep(S1, Enter(1, "repo"), [Cancel(1)] + ([Unwind(1)] + [Exit(0)]));
    RunFrom2();
  }

  /** The dictionary need not empty: a waiter cancelled while another task holds takes the count away,
      and the entry stays behind when the holder leaves. */
  lemma IdleEntryRemains()
    ensures exists s :: Reachable(s) && "repo" in s.locks && forall t :: PcOf(s, t).Idle?
  {
    StartOk();
    FirstHolds();
    RunStep(START, Enter(0, "repo"), [Enter(1, "repo")] + ([Cancel(1)] + ([Unwind(1)] + [Exit(0)])));
    RunFrom1();
    assert Reachable(S5) && "repo" in S5.locks && forall t :: PcOf(S5, t).Idle?;
  }
}
