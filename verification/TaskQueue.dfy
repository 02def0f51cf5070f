/** agents/main.py and agents/coordination/task_queue.py: the board of queued and
    running tasks, and the program points of the handlers that work on it. */
module TaskQueue {
  import opened Wrappers

  type TaskId = nat

  /** What is serialised: one live project, or everything that names none. */
  datatype Scope = LegacyShared | Project(id: string)

  /** Fixed at creation: the scope in the dispatch arguments, and whether the
      session mode needs the scope's lock ("ephemeral" does not). */
  datatype Task = Task(scope: Scope, needsLock: bool)

  datatype Board = Board(
    tasks: map<TaskId, Task>,
    lock: map<Scope, TaskId>,          // Redis, one key a scope
    queue: map<Scope, seq<TaskId>>,    // Redis, one list a scope
    pending: map<TaskId, Scope>,       // _PENDING_TASK_DISPATCH, with task_scope_id
    cancelled: set<TaskId>,            // _CANCELLED_TASKS
    started: seq<TaskId>)              // run threads started, in order

  const EMPTY_BOARD := Board(map[], map[], map[], map[], {}, [])

  // ------------------------------------------------------------- task_queue.py

  function Waiting(b: Board, s: Scope): seq<TaskId> {
    if s in b.queue then b.queue[s] else []
  }

  function Release(b: Board, t: TaskId, s: Scope): Board {
    if s in b.lock && b.lock[s] == t then b.(lock := b.lock - {s}) else b
  }

  function Enqueue(b: Board, t: TaskId, s: Scope): Board {
    b.(queue := b.queue[s := Waiting(b, s) + [t]])
  }

  /** The list without any copy of `t`. */
  function Without(q: seq<TaskId>, t: TaskId): seq<TaskId> {
    if q == [] then []
    else if q[0] == t then Without(q[1..], t)
    else [q[0]] + Without(q[1..], t)
  }

  lemma {:induction false} WithoutRemoves(q: seq<TaskId>, t: TaskId)
    ensures forall x :: x in Without(q, t) <==> x in q && x != t
    ensures multiset(Without(q, t)) == multiset(q)[t := 0]
  {
    if q != [] {
      WithoutRemoves(q[1..], t);
      assert q == [q[0]] + q[1..];
    }
  }

  // ------------------------------------------------------------ program points

  /** Where a thread of the process stands; the last three points are those of a chat
      run (agents/routing/gates.py), which takes the lock of its scope as well. Each step from one point to the next
      is one Redis command or one block under `_pending_task_dispatch_lock`. */
  datatype Point =
    | CreateAcquire(t: TaskId)
    | CreatePending(t: TaskId)
    | CreateEnqueue(t: TaskId)
    | DispatchCheck(t: TaskId)
    | DispatchStart(t: TaskId)
    | RunBody(t: TaskId)
    | RunRelease(t: TaskId)
    | RunForget(t: TaskId)
    | AdvancePop(s: Scope)
    | AdvanceCancelled(t: TaskId, s: Scope)
    | AdvanceTake(t: TaskId, s: Scope)
    | AdvanceAcquire(t: TaskId, s: Scope)
    | AdvancePutBack(t: TaskId, s: Scope)
    | AdvanceEnqueue(t: TaskId, s: Scope)
    | StopQueued(t: TaskId)
    | StopRemove(t: TaskId, s: Scope)
    | StopRunning(t: TaskId)
    | ChatAcquire(t: TaskId)
    | ChatBody(t: TaskId)
    | ChatRelease(t: TaskId)
    | Idle

  function ScopeOf(b: Board, t: TaskId): Scope {
    if t in b.tasks then b.tasks[t].scope else LegacyShared
  }

  predicate NeedsLock(b: Board, t: TaskId) {
    t in b.tasks && b.tasks[t].needsLock
  }

  /** One step of a thread at `p`: the new board and where the thread goes. The
      thread that `DispatchStart` starts begins at `RunBody` of the same task. */
  function StepFrom(b: Board, p: Point): (Board, Point) {
    match p
    case CreateAcquire(t) =>
      var s := ScopeOf(b, t);
      if !NeedsLock(b, t) then (b, DispatchCheck(t))
      else if s in b.lock then (b, CreatePending(t))
      else (b.(lock := b.lock[s := t]), DispatchCheck(t))
    case CreatePending(t) => (b.(pending := b.pending[t := ScopeOf(b, t)]), CreateEnqueue(t))
    case CreateEnqueue(t) => (Enqueue(b, t, ScopeOf(b, t)), Idle)
    case DispatchCheck(t) =>
      if t in b.cancelled then (Release(b.(cancelled := b.cancelled - {t}), t, ScopeOf(b, t)), Idle)
      else (b, DispatchStart(t))
    case DispatchStart(t) => (b.(started := b.started + [t]), Idle)
    case RunBody(t) => (b, RunRelease(t))
    case RunRelease(t) => (Release(b, t, ScopeOf(b, t)), RunForget(t))
    case RunForget(t) => (b.(cancelled := b.cancelled - {t}), AdvancePop(ScopeOf(b, t)))
    case AdvancePop(s) =>
      if Waiting(b, s) == [] then (b, Idle)
      else (b.(queue := b.queue[s := b.queue[s][1..]]), AdvanceCancelled(b.queue[s][0], s))
    case AdvanceCancelled(t, s) =>
      if t in b.cancelled then (b.(cancelled := b.cancelled - {t}, pending := b.pending - {t}), AdvancePop(s))
      else (b, AdvanceTake(t, s))
    case AdvanceTake(t, s) =>
      if t in b.pending then (b.(pending := b.pending - {t}), AdvanceAcquire(t, b.pending[t]))
      else (b, AdvancePop(s))
    case AdvanceAcquire(t, s) =>
      if s in b.lock then (b, AdvancePutBack(t, s))
      else (b.(lock := b.lock[s := t]), DispatchCheck(t))
    case AdvancePutBack(t, s) => (b.(pending := b.pending[t := s]), AdvanceEnqueue(t, s))
    case AdvanceEnqueue(t, s) => (Enqueue(b, t, s), Idle)
    case StopQueued(t) =>
      var s := if t in b.pending then b.pending[t] else LegacyShared;
      (b.(cancelled := b.cancelled + {t}, pending := b.pending - {t}), StopRemove(t, s))
    case StopRemove(t, s) => (b.(queue := b.queue[s := Without(Waiting(b, s), t)]), Idle)
    case StopRunning(t) => (b.(cancelled := b.cancelled + {t}), Idle)
    case ChatAcquire(t) =>
      var s := ScopeOf(b, t);
      if s in b.lock then (b, Idle) else (b.(lock := b.lock[s := t]), ChatBody(t))
    case ChatBody(t) => (b, ChatRelease(t))
    case ChatRelease(t) => (Release(b, t, ScopeOf(b, t)), Idle)
    case Idle => (b, Idle)
  }

  // ------------------------------------------------- a handler without company

  function Rank(p: Point): nat {
    match p
    case StopQueued(_) => 1
    case StopRemove(_, _) => 0
    case StopRunning(_) => 0
    case ChatAcquire(_) => 2
    case ChatBody(_) => 1
    case ChatRelease(_) => 0
    case Idle => 0
    case RunBody(_) => 11
    case RunRelease(_) => 10
    case RunForget(_) => 9
    case CreateAcquire(_) => 8
    case CreatePending(_) => 1
    case CreateEnqueue(_) => 0
    case AdvanceCancelled(_, _) => 8
    case AdvanceTake(_, _) => 7
    case AdvanceAcquire(_, _) => 6
    case AdvancePutBack(_, _) => 5
    case AdvanceEnqueue(_, _) => 4
    case DispatchCheck(_) => 3
    case DispatchStart(_) => 2
    case AdvancePop(_) => 0
  }

  function ListLength(b: Board, p: Point): nat {
    match p
    case RunBody(t) => |Waiting(b, ScopeOf(b, t))|
    case RunRelease(t) => |Waiting(b, ScopeOf(b, t))|
    case RunForget(t) => |Waiting(b, ScopeOf(b, t))|
    case AdvancePop(s) => |Waiting(b, s)|
    case AdvanceCancelled(_, s) => |Waiting(b, s)|
    case AdvanceTake(_, s) => |Waiting(b, s)|
    case _ => 0
  }

  /** The handler at `p` run to its end with nobody in between. It ends: every
      turn of `_advance_task_queue` shortens the wait list. */
  function Settle(b: Board, p: Point): Board
    decreases ListLength(b, p), Rank(p)
  {
    var (next, q) := StepFrom(b, p);
    if q == Idle then next else Settle(next, q)
  }

  lemma OneStep(b: Board, p: Point)
    ensures var (next, q) := StepFrom(b, p);
      Settle(b, p) == if q == Idle then next else Settle(next, q)
  {
  }

  /** Taking the arguments of a popped task: gone, scope taken meanwhile, or ready. */
  lemma TakeTurn(b: Board, n: TaskId, s: Scope)
    ensures Settle(b, AdvanceTake(n, s)) ==
      if n !in b.pending then Settle(b, AdvancePop(s))
      else
        var taken := b.(pending := b.pending - {n});
        if b.pending[n] in b.lock then Enqueue(taken.(pending := taken.pending[n := b.pending[n]]), n, b.pending[n])
        else Settle(taken.(lock := b.lock[b.pending[n] := n]), DispatchCheck(n))
  {
    hide Settle;
    OneStep(b, AdvanceTake(n, s));
    if n in b.pending {
      var taken := b.(pending := b.pending - {n});
      OneStep(taken, AdvanceAcquire(n, b.pending[n]));
      if b.pending[n] in b.lock {
        OneStep(taken, AdvancePutBack(n, b.pending[n]));
        OneStep(taken.(pending := taken.pending[n := b.pending[n]]), AdvanceEnqueue(n, b.pending[n]));
      }
    }
  }

  /** `_advance_task_queue` as one turn: nothing waiting, a dropped entry and
      another turn, or the head's arguments to take. */
  lemma AdvanceTurn(b: Board, s: Scope)
    ensures Waiting(b, s) == [] ==> Settle(b, AdvancePop(s)) == b
    ensures Waiting(b, s) != [] ==>
      var n, rest := b.queue[s][0], b.(queue := b.queue[s := b.queue[s][1..]]);
      Settle(b, AdvancePop(s)) ==
        if n in b.cancelled then
          Settle(rest.(cancelled := b.cancelled - {n}, pending := b.pending - {n}), AdvancePop(s))
        else Settle(rest, AdvanceTake(n, s))
  {
    hide Settle;
    OneStep(b, AdvancePop(s));
    if Waiting(b, s) != [] {
      OneStep(b.(queue := b.queue[s := b.queue[s][1..]]), AdvanceCancelled(b.queue[s][0], s));
    }
  }

  /** A creation: straight to the dispatch, or into the list. */
  lemma CreateTurn(b: Board, t: TaskId)
    requires t in b.tasks
    ensures var s := b.tasks[t].scope;
      Settle(b, CreateAcquire(t)) ==
        if !b.tasks[t].needsLock then Settle(b, DispatchCheck(t))
        else if s in b.lock then Enqueue(b.(pending := b.pending[t := s]), t, s)
        else Settle(b.(lock := b.lock[s := t]), DispatchCheck(t))
  {
    hide Settle;
    var s := b.tasks[t].scope;
    OneStep(b, CreateAcquire(t));
    if b.tasks[t].needsLock && s in b.lock {
      OneStep(b, CreatePending(t));
      OneStep(b.(pending := b.pending[t := s]), CreateEnqueue(t));
    }
  }

  lemma StopQueuedTurn(b: Board, t: TaskId)
    ensures var s := if t in b.pending then b.pending[t] else LegacyShared;
      Settle(b, StopQueued(t)) ==
        b.(cancelled := b.cancelled + {t}, pending := b.pending - {t}, queue := b.queue[s := Without(Waiting(b, s), t)])
  {
    hide Settle, StepFrom;
    OneStep(b, StopQueued(t));
    var (marked, p) := StepFrom(b, StopQueued(t));
    MarkStep(b, t);
    OneStep(marked, p);
    RemoveStep(marked, t, p.s);
  }

  lemma MarkStep(b: Board, t: TaskId)
    ensures StepFrom(b, StopQueued(t)) ==
      (b.(cancelled := b.cancelled + {t}, pending := b.pending - {t}),
       StopRemove(t, if t in b.pending then b.pending[t] else LegacyShared))
  {
  }

  lemma RemoveStep(b: Board, t: TaskId, s: Scope)
    ensures StepFrom(b, StopRemove(t, s)) == (b.(queue := b.queue[s := Without(Waiting(b, s), t)]), Idle)
  {
  }

  lemma StopRunningTurn(b: Board, t: TaskId)
    ensures Settle(b, StopRunning(t)) == b.(cancelled := b.cancelled + {t})
  {
    OneStep(b, StopRunning(t));
  }

  // ----------------------------------------------------------- the module state

  /** The module-level dictionaries and the two Redis keys of each scope, changed
      by the handlers. */
  class Dispatcher {
    var tasks: map<TaskId, Task>
    var lock: map<Scope, TaskId>
    var queue: map<Scope, seq<TaskId>>
    var pending: map<TaskId, Scope>
    var cancelled: set<TaskId>
    var started: seq<TaskId>

    constructor ()
      ensures State() == EMPTY_BOARD
    {
      tasks, lock, queue, pending, cancelled, started := map[], map[], map[], map[], {}, [];
    }

    ghost function State(): Board
      reads this
    {
      Board(tasks, lock, queue, pending, cancelled, started)
    }

    method TryAcquire(t: TaskId, s: Scope) returns (ok: bool)
      modifies this`lock
      ensures ok <==> s !in old(lock)
      ensures lock == if ok then old(lock)[s := t] else old(lock)
    {
      ok := s !in lock;
      if ok { lock := lock[s := t]; }
    }

    method ReleaseLock(t: TaskId, s: Scope)
      modifies this`lock
      ensures State() == Release(old(State()), t, s)
    {
      if s in lock && lock[s] == t { lock := lock - {s}; }
    }

    method PopNext(s: Scope) returns (r: Option<TaskId>)
      modifies this`queue
      ensures r == None <==> Waiting(old(State()), s) == []
      ensures r == None ==> queue == old(queue)
      ensures r.Some? ==> s in old(queue) && old(queue)[s] != []
      ensures r.Some? ==> r.value == old(queue)[s][0] && queue == old(queue)[s := old(queue)[s][1..]]
    {
      if s !in queue || queue[s] == [] { return None; }
      r := Some(queue[s][0]);
      queue := queue[s := queue[s][1..]];
    }

    method Append(t: TaskId, s: Scope)
      modifies this`queue
      ensures State() == Enqueue(old(State()), t, s)
    {
      var waiting := if s in queue then queue[s] else [];
      queue := queue[s := waiting + [t]];
    }

    /** `_dispatch_task_now`, called with the lock of a task that needs it. */
    method DispatchTaskNow(t: TaskId)
      requires t in tasks
      modifies this`cancelled, this`lock, this`started
      ensures State() == Settle(old(State()), DispatchCheck(t))
      ensures t in old(cancelled) ==>
        && cancelled == old(cancelled) - {t} && started == old(started)
        && var s := tasks[t].scope;
           lock == if s in old(lock) && old(lock)[s] == t then old(lock) - {s} else old(lock)
      ensures t !in old(cancelled) ==>
        cancelled == old(cancelled) && lock == old(lock) && started == old(started) + [t]
    {
      if t in cancelled {
        cancelled := cancelled - {t};
        ReleaseLock(t, tasks[t].scope);
        return;
      }
      started := started + [t];
    }

    /** `_advance_task_queue`: recursive, as in the source. */
    method AdvanceTaskQueue(s: Scope)
      requires forall n :: n in pending ==> n in tasks
      modifies this
      ensures State() == Settle(old(State()), AdvancePop(s))
      decreases if s in queue then |queue[s]| else 0
    {
      AdvanceTurn(State(), s);
      var nextId := PopNext(s);
      hide Settle;
      if nextId.None? { return; }
      var n := nextId.value;
      if n in cancelled {
        cancelled := cancelled - {n};
        pending := pending - {n};
        AdvanceTaskQueue(s);
        return;
      }
      TakeTurn(State(), n, s);
      if n !in pending {
        AdvanceTaskQueue(s);
        return;
      }
      var scope := pending[n];
      pending := pending - {n};
      var ok := TryAcquire(n, scope);
      if !ok {
        pending := pending[n := scope];
        Append(n, scope);
        return;
      }
      DispatchTaskNow(n);
    }

    /** The `finally` block of a run thread. */
    method FinishRun(t: TaskId)
      requires t in tasks && forall n :: n in pending ==> n in tasks
      modifies this
      ensures State() == Settle(old(State()), RunRelease(t))
    {
      var scope := tasks[t].scope;
      ReleaseLock(t, scope);
      cancelled := cancelled - {t};
      AdvanceTaskQueue(scope);
    }

    method CreateTask(t: TaskId, task: Task)
      requires t !in tasks
      modifies this
      ensures State() == Settle(old(State()).(tasks := old(tasks)[t := task]), CreateAcquire(t))
      ensures tasks == old(tasks)[t := task]
      ensures task.needsLock && task.scope in old(lock) ==>
        && pending == old(pending)[t := task.scope] && lock == old(lock) && started == old(started)
        && queue == old(queue)[task.scope := Waiting(old(State()), task.scope) + [t]]
      ensures !(task.needsLock && task.scope in old(lock)) ==> pending == old(pending) && queue == old(queue)
      ensures !(task.needsLock && task.scope in old(lock)) && t !in old(cancelled) ==>
        && started == old(started) + [t]
        && lock == if task.needsLock then old(lock)[task.scope := t] else old(lock)
    {
      hide Settle;
      tasks := tasks[t := task];
      CreateTurn(State(), t);
      var acquired := true;
      if task.needsLock { acquired := TryAcquire(t, task.scope); }
      if acquired {
        DispatchTaskNow(t);
      } else {
        pending := pending[t := task.scope];
        Append(t, task.scope);
      }
    }

    /** `stop_task`, after it read the status of the run row. */
    method StopTask(t: TaskId, seenQueued: bool)
      modifies this
      ensures State() == Settle(old(State()), if seenQueued then StopQueued(t) else StopRunning(t))
      ensures cancelled == old(cancelled) + {t} && tasks == old(tasks) && lock == old(lock) && started == old(started)
      ensures !seenQueued ==> pending == old(pending) && queue == old(queue)
      ensures seenQueued ==>
        && pending == old(pending) - {t}
        && var s := if t in old(pending) then old(pending)[t] else LegacyShared;
          && queue.Keys == old(queue).Keys + {s} && t !in queue[s]
          && multiset(queue[s]) == multiset(Waiting(old(State()), s))[t := 0]
          && forall r :: r in queue && r != s ==> queue[r] == old(queue)[r]
    {
      hide Settle, Without, StepFrom;
      if seenQueued {
        StopQueuedTurn(State(), t);
        var scope := if t in pending then pending[t] else LegacyShared;
        cancelled := cancelled + {t};
        pending := pending - {t};
        var waiting := if scope in queue then queue[scope] else [];
        WithoutRemoves(waiting, t);
        queue := queue[scope := Without(waiting, t)];
      } else {
        StopRunningTurn(State(), t);
        cancelled := cancelled + {t};
      }
    }
  }
}
