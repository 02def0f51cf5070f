/** Progress of the task queue: when a task is stranded although each handler runs
    to its end before the next begins. */
module TaskProgress {
  import opened TaskQueue
  import TaskRuns

  /** Between handlers: the board, the tasks whose run has started and not ended,
      and the chat runs that hold a scope. */
  datatype Quiet = Quiet(b: Board, running: set<TaskId>, chats: set<TaskId>)

  datatype Handler =
    | CreateTask(t: TaskId, task: Task)
    | StopTask(t: TaskId, seenQueued: bool)
    | FinishRun(t: TaskId)
    | ChatStart(t: TaskId, scope: Scope)
    | ChatEnd(t: TaskId)

  /** The run, if any, that the handler has started. */
  function NewRun(before: Board, after: Board): set<TaskId> {
    if |after.started| > |before.started| then {after.started[|before.started|]} else {}
  }

  function Handle(q: Quiet, h: Handler): Quiet {
    match h
    case CreateTask(t, task) =>
      if t in q.b.tasks then q
      else
        var b := Settle(q.b.(tasks := q.b.tasks[t := task]), CreateAcquire(t));
        Quiet(b, q.running + NewRun(q.b, b), q.chats)
    case StopTask(t, seenQueued) =>
      if t !in q.b.tasks then q
      else q.(b := Settle(q.b, if seenQueued then StopQueued(t) else StopRunning(t)))
    case FinishRun(t) =>
      if t !in q.running then q
      else
        var b := Settle(q.b, RunRelease(t));
        Quiet(b, q.running - {t} + NewRun(q.b, b), q.chats)
    case ChatStart(t, scope) =>
      if t in q.b.tasks then q
      else
        var (b, p) := StepFrom(q.b.(tasks := q.b.tasks[t := Task(scope, true)]), ChatAcquire(t));
        Quiet(b, q.running, if p == Idle then q.chats else q.chats + {t})
    case ChatEnd(t) =>
      if t !in q.chats then q
      else q.(b := Settle(q.b, ChatRelease(t)), chats := q.chats - {t})
  }

  function AfterHandlers(hs: seq<Handler>): Quiet {
    if hs == [] then Quiet(EMPTY_BOARD, {}, {}) else Handle(AfterHandlers(hs[..|hs| - 1]), hs[|hs| - 1])
  }

  ghost predicate Tidy(b: Board) {
    && b.cancelled <= b.tasks.Keys
    && (forall t: TaskId :: t in b.pending ==> NeedsLock(b, t) && b.pending[t] == ScopeOf(b, t))
    && (forall s, t: TaskId :: TaskRuns.InQueue(b, t, s) ==> NeedsLock(b, t) && ScopeOf(b, t) == s)
    && (forall s :: TaskRuns.Distinct(Waiting(b, s)))
  }

  /** The lock belongs to a run or a chat of its scope. */
  ghost predicate HeldWell(q: Quiet, s: Scope)
    requires s in q.b.lock
  {
    var t := q.b.lock[s];
    (t in q.running || t in q.chats) && NeedsLock(q.b, t) && ScopeOf(q.b, t) == s
  }

  ghost predicate Holds(q: Quiet, t: TaskId) {
    ScopeOf(q.b, t) in q.b.lock && q.b.lock[ScopeOf(q.b, t)] == t
  }

  /** Every held lock belongs to a run or a chat that will end, and a run that needs
      its scope, and every chat, holds it. */
  ghost predicate LocksRun(q: Quiet) {
    && q.running <= q.b.tasks.Keys && q.chats <= q.b.tasks.Keys && q.running !! q.chats
    && (forall s :: s in q.b.lock ==> HeldWell(q, s))
    && (forall t: TaskId :: t in q.running && NeedsLock(q.b, t) ==> Holds(q, t))
    && (forall t: TaskId :: t in q.chats ==> NeedsLock(q.b, t) && Holds(q, t))
  }

  ghost predicate NobodyStranded(q: Quiet) {
    forall s :: Waiting(q.b, s) != [] ==> s in q.b.lock
  }

  /** What advancing scope `s` does: the other scopes are left alone; a held lock
      stays as it is; a free one is handed to the task started, or nobody waits. */
  ghost predicate Advanced(b: Board, n: Board, s: Scope) {
    && n.tasks == b.tasks
    && (forall r :: r != s ==>
          Waiting(n, r) == Waiting(b, r) && (r in n.lock <==> r in b.lock) && (r in b.lock ==> n.lock[r] == b.lock[r]))
    && (s in b.lock ==> n.lock == b.lock && n.started == b.started)
    && (s !in b.lock && s !in n.lock ==> Waiting(n, s) == [] && n.started == b.started)
    && (s !in b.lock && s in n.lock ==>
          n.started == b.started + [n.lock[s]] && NeedsLock(b, n.lock[s]) && ScopeOf(b, n.lock[s]) == s)
  }

  lemma DispatchTurn(b: Board, t: TaskId)
    requires t !in b.cancelled
    ensures Settle(b, DispatchCheck(t)) == b.(started := b.started + [t])
  {
    hide Settle;
    OneStep(b, DispatchCheck(t));
    OneStep(b, DispatchStart(t));
  }

  lemma TidyFrom(b: Board, n: Board)
    requires Tidy(b) && n.cancelled <= n.tasks.Keys
    requires forall t: TaskId :: t in b.tasks ==> t in n.tasks && n.tasks[t] == b.tasks[t]
    requires forall t: TaskId :: t in n.pending ==>
        (t in b.pending && n.pending[t] == b.pending[t]) || (NeedsLock(n, t) && n.pending[t] == ScopeOf(n, t))
    requires forall s, t: TaskId :: TaskRuns.InQueue(n, t, s) ==>
      TaskRuns.InQueue(b, t, s) || (NeedsLock(n, t) && ScopeOf(n, t) == s)
    requires forall s :: TaskRuns.Distinct(Waiting(n, s))
    ensures Tidy(n)
  {
  }

  lemma EnqueueDistinct(b: Board, n: TaskId, s: Scope)
    requires Tidy(b) && !TaskRuns.InQueue(b, n, s)
    ensures forall r :: TaskRuns.Distinct(Waiting(Enqueue(b, n, s), r))
    ensures forall r, t: TaskId :: TaskRuns.InQueue(Enqueue(b, n, s), t, r) ==>
      TaskRuns.InQueue(b, t, r) || (r == s && t == n)
  {
    hide TaskRuns.Distinct;
    TaskRuns.AppendDistinct(Waiting(b, s), n);
    forall r ensures TaskRuns.Distinct(Waiting(Enqueue(b, n, s), r)) {
      if r != s { assert Waiting(Enqueue(b, n, s), r) == Waiting(b, r); }
    }
  }

  lemma PutBackTidy(b: Board, n: TaskId, s: Scope)
    requires Tidy(b) && NeedsLock(b, n) && ScopeOf(b, n) == s && !TaskRuns.InQueue(b, n, s)
    ensures Tidy(Enqueue(b.(pending := (b.pending - {n})[n := s]), n, s))
  {
    hide TaskRuns.Distinct;
    var kept := b.(pending := (b.pending - {n})[n := s]);
    SameQueueTidy(b, kept);
    EnqueueDistinct(kept, n, s);
    TidyFrom(kept, Enqueue(kept, n, s));
  }

  lemma PutBackAdvances(b: Board, n: TaskId, s: Scope)
    requires s in b.lock
    ensures Advanced(b, Enqueue(b.(pending := (b.pending - {n})[n := s]), n, s), s)
  {
  }

  lemma StartTidy(b: Board, n: TaskId, s: Scope)
    requires Tidy(b) && NeedsLock(b, n) && ScopeOf(b, n) == s && s !in b.lock
    ensures var done := b.(pending := b.pending - {n}, lock := b.lock[s := n], started := b.started + [n]);
      Tidy(done) && Advanced(b, done, s)
  {
    var done := b.(pending := b.pending - {n}, lock := b.lock[s := n], started := b.started + [n]);
    assert forall r :: Waiting(done, r) == Waiting(b, r);
    TidyFrom(b, done);
  }

  lemma TakeAdvances(b: Board, n: TaskId, s: Scope)
    requires Tidy(b) && n in b.pending && n !in b.cancelled && ScopeOf(b, n) == s && !TaskRuns.InQueue(b, n, s)
    ensures Tidy(Settle(b, AdvanceTake(n, s))) && Advanced(b, Settle(b, AdvanceTake(n, s)), s)
  {
    TakeTurn(b, n, s);
    if s !in b.lock {
      DispatchTurn(b.(pending := b.pending - {n}, lock := b.lock[s := n]), n);
      StartTidy(b, n, s);
    } else {
      PutBackTidy(b, n, s);
      PutBackAdvances(b, n, s);
    }
    hide Settle, Advanced, Enqueue;
  }

  lemma PopTidy(b: Board, s: Scope)
    requires Tidy(b) && Waiting(b, s) != []
    ensures var n, rest := b.queue[s][0], b.(queue := b.queue[s := b.queue[s][1..]]);
      && Tidy(rest) && Tidy(rest.(cancelled := b.cancelled - {n}, pending := b.pending - {n}))
      && NeedsLock(b, n) && ScopeOf(b, n) == s && !TaskRuns.InQueue(rest, n, s)
      && |Waiting(rest, s)| == |Waiting(b, s)| - 1 && forall r :: r != s ==> Waiting(rest, r) == Waiting(b, r)
  {
    var n, rest := b.queue[s][0], b.(queue := b.queue[s := b.queue[s][1..]]);
    hide TaskRuns.Distinct;
    assert TaskRuns.InQueue(b, n, s);
    TaskRuns.PopDistinct(Waiting(b, s));
    forall r ensures TaskRuns.Distinct(Waiting(rest, r)) {
      if r != s { assert Waiting(rest, r) == Waiting(b, r); }
    }
    TidyFrom(b, rest);
    var drop := rest.(cancelled := b.cancelled - {n}, pending := b.pending - {n});
    assert forall r :: Waiting(drop, r) == Waiting(rest, r);
    TidyFrom(rest, drop);
  }

  /** Advancing after the head was popped is advancing. */
  lemma AdvancedFromRest(b: Board, rest: Board, n: Board, s: Scope)
    requires rest.tasks == b.tasks && rest.lock == b.lock && rest.started == b.started
    requires forall r :: r != s ==> Waiting(rest, r) == Waiting(b, r)
    requires Advanced(rest, n, s)
    ensures Advanced(b, n, s)
  {
  }

  lemma {:induction false} AdvanceAdvances(b: Board, s: Scope)
    requires Tidy(b)
    ensures Tidy(Settle(b, AdvancePop(s))) && Advanced(b, Settle(b, AdvancePop(s)), s)
    decreases |Waiting(b, s)|
  {
    hide Settle;
    AdvanceTurn(b, s);
    if Waiting(b, s) != [] {
      var n, rest := b.queue[s][0], b.(queue := b.queue[s := b.queue[s][1..]]);
      PopTidy(b, s);
      var drop := rest.(cancelled := b.cancelled - {n}, pending := b.pending - {n});
      assert forall r :: Waiting(drop, r) == Waiting(rest, r);
      hide Advanced, Tidy, NeedsLock;
      if n in b.cancelled {
        AdvanceAdvances(drop, s);
        AdvancedFromRest(b, drop, Settle(drop, AdvancePop(s)), s);
      } else if n in b.pending {
        assert ScopeOf(rest, n) == ScopeOf(b, n);
        TakeAdvances(rest, n, s);
        AdvancedFromRest(b, rest, Settle(rest, AdvanceTake(n, s)), s);
      } else {
        TakeTurn(rest, n, s);
        AdvanceAdvances(rest, s);
        AdvancedFromRest(b, rest, Settle(rest, AdvancePop(s)), s);
      }
    }
  }

  ghost predicate QuietInv(q: Quiet) {
    Tidy(q.b) && LocksRun(q) && NobodyStranded(q)
  }

  /** The lock of the ended run is free or never was its own. */
  lemma FreedTidy(q: Quiet, t: TaskId)
    requires QuietInv(q) && t in q.running
    ensures var s := ScopeOf(q.b, t);
      var freed := Release(q.b, t, s);
      var b := freed.(cancelled := freed.cancelled - {t});
      && Tidy(b) && b.tasks == q.b.tasks && b.queue == q.b.queue && b.started == q.b.started
      && (forall r :: r in b.lock ==> r in q.b.lock && b.lock[r] == q.b.lock[r] && b.lock[r] != t)
      && (forall r :: r in q.b.lock && r !in b.lock ==> r == s && q.b.lock[r] == t)
  {
    var s := ScopeOf(q.b, t);
    var freed := Release(q.b, t, s);
    var b := freed.(cancelled := freed.cancelled - {t});
    assert forall r :: Waiting(b, r) == Waiting(q.b, r);
    TidyFrom(q.b, b);
  }

  lemma FinishSettles(b0: Board, t: TaskId)
    ensures var s := ScopeOf(b0, t);
      var freed := Release(b0, t, s);
      Settle(b0, RunRelease(t)) == Settle(freed.(cancelled := freed.cancelled - {t}), AdvancePop(s))
  {
    hide Settle;
    OneStep(b0, RunRelease(t));
    OneStep(Release(b0, t, ScopeOf(b0, t)), RunForget(t));
  }

  lemma FinishKeepsLocks(q: Quiet, b: Board, n: Board, t: TaskId, s: Scope)
    requires LocksRun(q) && t in q.running && b.tasks == q.b.tasks && b.started == q.b.started
    requires forall r :: r in b.lock ==> r in q.b.lock && b.lock[r] == q.b.lock[r] && b.lock[r] != t
    requires forall r :: r in q.b.lock && r !in b.lock ==> r == s && q.b.lock[r] == t
    requires Advanced(b, n, s)
    ensures LocksRun(Quiet(n, q.running - {t} + NewRun(q.b, n), q.chats))
  {
    var after := Quiet(n, q.running - {t} + NewRun(q.b, n), q.chats);
    if s !in b.lock && s in n.lock {
      assert n.started[|q.b.started|] == n.lock[s];
      assert NewRun(q.b, n) == {n.lock[s]};
    } else {
      assert NewRun(q.b, n) == {};
    }
    forall r | r in n.lock ensures HeldWell(after, r) {
      if r != s || s in b.lock { assert r in b.lock && n.lock[r] == b.lock[r]; }
    }
    forall u: TaskId | (u in after.running && NeedsLock(n, u)) || u in after.chats ensures Holds(after, u) {
      if (u in q.running && u != t) || u in q.chats {
        assert Holds(q, u);
        assert ScopeOf(q.b, u) in b.lock;
      }
    }
  }

  lemma FinishKeeps(q: Quiet, t: TaskId)
    requires QuietInv(q) && t in q.running
    ensures QuietInv(Handle(q, FinishRun(t)))
  {
    var s := ScopeOf(q.b, t);
    var freed := Release(q.b, t, s);
    var b := freed.(cancelled := freed.cancelled - {t});
    FreedTidy(q, t);
    FinishSettles(q.b, t);
    AdvanceAdvances(b, s);
    var n := Settle(b, AdvancePop(s));
    FinishKeepsLocks(q, b, n, t, s);
    hide Settle, Tidy, LocksRun, NewRun, Release;
    assert Handle(q, FinishRun(t)) == Quiet(n, q.running - {t} + NewRun(q.b, n), q.chats);
    forall r | Waiting(n, r) != [] ensures r in n.lock {
      if r != s { assert Waiting(n, r) == Waiting(q.b, r); }
    }
  }

  lemma CreateSettles(b: Board, t: TaskId)
    requires t in b.tasks && t !in b.cancelled
    ensures var s := b.tasks[t].scope;
      Settle(b, CreateAcquire(t)) ==
        if !b.tasks[t].needsLock then b.(started := b.started + [t])
        else if s in b.lock then Enqueue(b.(pending := b.pending[t := s]), t, s)
        else b.(lock := b.lock[s := t], started := b.started + [t])
  {
    hide Settle;
    var s := b.tasks[t].scope;
    CreateTurn(b, t);
    if !b.tasks[t].needsLock {
      DispatchTurn(b, t);
    } else if s !in b.lock {
      DispatchTurn(b.(lock := b.lock[s := t]), t);
    }
  }

  lemma SameQueueTidy(b: Board, n: Board)
    requires Tidy(b) && n.tasks == b.tasks && n.queue == b.queue && n.cancelled == b.cancelled
    requires forall t: TaskId :: t in n.pending ==> NeedsLock(b, t) && n.pending[t] == ScopeOf(b, t)
    ensures Tidy(n)
  {
    hide TaskRuns.Distinct;
    assert forall s :: Waiting(n, s) == Waiting(b, s);
    TidyFrom(b, n);
  }

  lemma CreateKeepsTidy(b0: Board, t: TaskId, task: Task)
    requires Tidy(b0) && t !in b0.tasks
    ensures var b := b0.(tasks := b0.tasks[t := task]);
      && Tidy(b) && Tidy(b.(started := b.started + [t]))
      && Tidy(b.(lock := b.lock[task.scope := t], started := b.started + [t]))
      && (task.needsLock ==> Tidy(Enqueue(b.(pending := b.pending[t := task.scope]), t, task.scope)))
  {
    hide TaskRuns.Distinct;
    var b := b0.(tasks := b0.tasks[t := task]);
    assert forall s :: Waiting(b, s) == Waiting(b0, s);
    assert forall s :: !TaskRuns.InQueue(b0, t, s);
    TidyFrom(b0, b);
    SameQueueTidy(b, b.(started := b.started + [t]));
    SameQueueTidy(b, b.(lock := b.lock[task.scope := t], started := b.started + [t]));
    if task.needsLock {
      assert !TaskRuns.InQueue(b0, t, task.scope);
      assert Waiting(b, task.scope) == Waiting(b0, task.scope);
      PutBackTidy(b, t, task.scope);
      assert (b.pending - {t})[t := task.scope] == b.pending[t := task.scope];
    }
  }

  lemma CreateKeepsLocks(q: Quiet, t: TaskId, task: Task, n: Board)
    requires LocksRun(q) && t !in q.b.tasks && n.tasks == q.b.tasks[t := task]
    requires
      || (n.started == q.b.started && n.lock == q.b.lock)
      || (n.started == q.b.started + [t] && n.lock == if task.needsLock then q.b.lock[task.scope := t] else q.b.lock)
    requires task.needsLock && n.started != q.b.started ==> task.scope !in q.b.lock
    ensures LocksRun(Quiet(n, q.running + NewRun(q.b, n), q.chats))
  {
    assert NewRun(q.b, n) == if n.started == q.b.started then {} else {t};
  }

  lemma CreateKeeps(q: Quiet, t: TaskId, task: Task)
    requires QuietInv(q) && t !in q.b.tasks
    ensures QuietInv(Handle(q, CreateTask(t, task)))
  {
    var b := q.b.(tasks := q.b.tasks[t := task]);
    CreateKeepsTidy(q.b, t, task);
    CreateSettles(b, t);
    var n := Settle(b, CreateAcquire(t));
    CreateKeepsLocks(q, t, task, n);
    hide Settle, Tidy, LocksRun, NewRun;
    var after := Handle(q, CreateTask(t, task));
    assert after == Quiet(n, q.running + NewRun(q.b, n), q.chats);
    forall r | Waiting(n, r) != [] ensures r in n.lock {
      if r != task.scope || n.queue == q.b.queue { assert Waiting(n, r) == Waiting(q.b, r); }
    }
  }

  lemma StopKeeps(q: Quiet, t: TaskId, seenQueued: bool)
    requires QuietInv(q) && t in q.b.tasks
    ensures QuietInv(Handle(q, StopTask(t, seenQueued)))
  {
    var n := Handle(q, StopTask(t, seenQueued)).b;
    if seenQueued {
      StopQueuedTurn(q.b, t);
      WithoutRemoves(Waiting(q.b, if t in q.b.pending then q.b.pending[t] else LegacyShared), t);
    } else {
      StopRunningTurn(q.b, t);
    }
    hide Settle, Without;
    forall r, u: TaskId | TaskRuns.InQueue(n, u, r) ensures TaskRuns.InQueue(q.b, u, r) {}
    forall r ensures TaskRuns.Distinct(Waiting(n, r)) {
      if Waiting(n, r) == Waiting(q.b, r) { assert TaskRuns.Distinct(Waiting(q.b, r)); }
    }
    StillTidy(q, n);
  }

  /** Dropping waiting tasks and cancelling known ones strands nobody. */
  lemma StillTidy(q: Quiet, n: Board)
    requires QuietInv(q) && n.tasks == q.b.tasks && n.lock == q.b.lock && n.cancelled <= n.tasks.Keys
    requires forall u: TaskId :: u in n.pending ==> u in q.b.pending && n.pending[u] == q.b.pending[u]
    requires forall r, u: TaskId :: TaskRuns.InQueue(n, u, r) ==> TaskRuns.InQueue(q.b, u, r)
    requires forall r :: TaskRuns.Distinct(Waiting(n, r))
    ensures QuietInv(Quiet(n, q.running, q.chats))
  {
    TidyFrom(q.b, n);
    forall r | Waiting(n, r) != [] ensures r in n.lock {
      assert TaskRuns.InQueue(n, Waiting(n, r)[0], r);
      assert TaskRuns.InQueue(q.b, Waiting(n, r)[0], r);
    }
  }

  lemma ChatStartTidy(b: Board, t: TaskId, scope: Scope)
    requires Tidy(b) && t !in b.tasks
    ensures Tidy(StepFrom(b.(tasks := b.tasks[t := Task(scope, true)]), ChatAcquire(t)).0)
  {
    var known := b.(tasks := b.tasks[t := Task(scope, true)]);
    var n := StepFrom(known, ChatAcquire(t)).0;
    CreateKeepsTidy(b, t, Task(scope, true));
    assert n.queue == known.queue && n.pending == known.pending && n.cancelled == known.cancelled;
    hide Tidy, TaskRuns.Distinct;
    SameQueueTidy(known, n);
  }

  lemma ChatStartLocks(q: Quiet, t: TaskId, scope: Scope)
    requires LocksRun(q) && t !in q.b.tasks
    ensures LocksRun(Handle(q, ChatStart(t, scope)))
  {
    var after := Handle(q, ChatStart(t, scope));
    forall r | r in after.b.lock ensures HeldWell(after, r) {
      if r in q.b.lock { assert HeldWell(q, r); }
    }
    forall u: TaskId | (u in after.running && NeedsLock(after.b, u)) || u in after.chats
      ensures NeedsLock(after.b, u) && Holds(after, u)
    {
      if u != t { assert Holds(q, u); }
    }
  }

  lemma ChatStartKeeps(q: Quiet, t: TaskId, scope: Scope)
    requires QuietInv(q)
    ensures QuietInv(Handle(q, ChatStart(t, scope)))
  {
    if t !in q.b.tasks {
      ChatStartTidy(q.b, t, scope);
      ChatStartLocks(q, t, scope);
      hide Tidy, LocksRun;
      var n := Handle(q, ChatStart(t, scope)).b;
      assert forall r :: Waiting(n, r) == Waiting(q.b, r);
    }
  }

  /** A chat that ends frees its scope and looks at no list. */
  ghost predicate LeavesWaiting(q: Quiet, h: Handler) {
    h.ChatEnd? && h.t in q.chats && Waiting(q.b, ScopeOf(q.b, h.t)) != []
  }

  lemma ChatEndKeeps(q: Quiet, t: TaskId)
    requires QuietInv(q) && t in q.chats
    ensures var after := Handle(q, ChatEnd(t));
      Tidy(after.b) && LocksRun(after) && (NobodyStranded(after) <==> !LeavesWaiting(q, ChatEnd(t)))
  {
    OneStep(q.b, ChatRelease(t));
    hide Settle, TaskRuns.Distinct;
    var after := Handle(q, ChatEnd(t));
    assert Holds(q, t);
    SameQueueTidy(q.b, after.b);
    hide Tidy;
    assert forall r :: Waiting(after.b, r) == Waiting(q.b, r);
    forall r | r in after.b.lock ensures HeldWell(after, r) { assert HeldWell(q, r); }
    forall u: TaskId | (u in after.running && NeedsLock(after.b, u)) || u in after.chats ensures Holds(after, u) {
      assert Holds(q, u);
    }
    if LeavesWaiting(q, ChatEnd(t)) {
      assert Waiting(after.b, ScopeOf(q.b, t)) != [] && ScopeOf(q.b, t) !in after.b.lock;
    }
  }

  /** A handler run without company strands a task exactly when it is the end of a
      chat that held the scope of a waiting one. */
  lemma HandlerKeeps(q: Quiet, h: Handler)
    requires QuietInv(q)
    ensures Tidy(Handle(q, h).b) && LocksRun(Handle(q, h))
    ensures NobodyStranded(Handle(q, h)) <==> !LeavesWaiting(q, h)
  {
    match h
    case CreateTask(t, task) => if t !in q.b.tasks { CreateKeeps(q, t, task); }
    case StopTask(t, seenQueued) => if t in q.b.tasks { StopKeeps(q, t, seenQueued); }
    case FinishRun(t) => if t in q.running { FinishKeeps(q, t); }
    case ChatStart(t, scope) => ChatStartKeeps(q, t, scope);
    case ChatEnd(t) => if t in q.chats { ChatEndKeeps(q, t); }
  }

  /** When handlers do not overlap, and no chat ends over a waiting task, a task
      waits only while a run or a chat holds its scope. */
  lemma {:induction false} NoTaskStranded(hs: seq<Handler>)
    requires forall k :: 0 <= k < |hs| ==> !LeavesWaiting(AfterHandlers(hs[..k]), hs[k])
    ensures QuietInv(AfterHandlers(hs))
    ensures forall s :: Waiting(AfterHandlers(hs).b, s) != [] ==>
      s in AfterHandlers(hs).b.lock && HeldWell(AfterHandlers(hs), s)
  {
    hide Handle, LeavesWaiting, Tidy, Waiting;
    if hs == [] {
      NobodyYet();
    } else {
      var before := hs[..|hs| - 1];
      forall k | 0 <= k < |before| ensures !LeavesWaiting(AfterHandlers(before[..k]), before[k]) {
        assert before[..k] == hs[..k];
      }
      NoTaskStranded(before);
      assert hs[..|hs| - 1] == before;
      HandlerKeeps(AfterHandlers(before), hs[|hs| - 1]);
    }
  }

  lemma NobodyYet()
    ensures QuietInv(AfterHandlers([]))
  {
  }
}
