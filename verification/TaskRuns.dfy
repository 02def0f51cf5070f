/** The task handlers on concurrent threads: what every interleaving keeps. */
module TaskRuns {
  import opened Wrappers
  import opened TaskQueue

  type ThreadId = nat

  datatype Machine = Machine(b: Board, threads: map<ThreadId, Point>)

  const START := Machine(EMPTY_BOARD, map[])

  /** A request arrives on a new thread, or a thread makes its next step; `spawn`
      names the run thread that `DispatchStart` starts. What `stop_task` reads in
      the run row is up to the row, so both of its branches are possible. Handlers
      may overlap here more than on the one event loop they run on. */
  datatype Action =
    | Create(x: ThreadId, t: TaskId, task: Task)
    | Stop(x: ThreadId, t: TaskId, seenQueued: bool)
    | Chat(x: ThreadId, t: TaskId, scope: Scope)
    | Step(x: ThreadId, spawn: ThreadId)

  /** Thread `x` goes on at `p`, as thread `y` if a run thread takes over. */
  function Move(m: Machine, x: ThreadId, y: ThreadId, b: Board, p: Point): Machine {
    Machine(b, if p == Idle then m.threads - {x} else (m.threads - {x})[y := p])
  }

  /** A thread begins at `p` with a new task, or a chat run with an id of its own. */
  function Arrive(m: Machine, x: ThreadId, t: TaskId, task: Task, p: Point): Machine {
    if x in m.threads || t in m.b.tasks then m
    else Machine(m.b.(tasks := m.b.tasks[t := task]), m.threads[x := p])
  }

  /** Task ids are fresh (uuid4), and so are threads. */
  function Next(m: Machine, a: Action): Machine {
    match a
    case Create(x, t, task) => Arrive(m, x, t, task, CreateAcquire(t))
    case Chat(x, t, scope) => Arrive(m, x, t, Task(scope, true), ChatAcquire(t))
    case Stop(x, t, seenQueued) =>
      if x in m.threads || t !in m.b.tasks then m
      else m.(threads := m.threads[x := if seenQueued then StopQueued(t) else StopRunning(t)])
    case Step(x, spawn) =>
      if x !in m.threads then m
      else
        var (b, p) := StepFrom(m.b, m.threads[x]);
        if !m.threads[x].DispatchStart? then Move(m, x, x, b, p)
        else if spawn in m.threads then m
        else Move(m, x, spawn, b, RunBody(m.threads[x].t))
  }

  function After(actions: seq<Action>): Machine {
    if actions == [] then START else Next(After(actions[..|actions| - 1]), actions[|actions| - 1])
  }

  // ---------------------------------------------------------------- the places

  /** The task a thread is busy with; stopping a task is not being busy with it. */
  function At(p: Point): Option<TaskId> {
    match p
    case CreateAcquire(t) => Some(t)
    case CreatePending(t) => Some(t)
    case CreateEnqueue(t) => Some(t)
    case DispatchCheck(t) => Some(t)
    case DispatchStart(t) => Some(t)
    case RunBody(t) => Some(t)
    case RunRelease(t) => Some(t)
    case RunForget(t) => Some(t)
    case AdvanceCancelled(t, _) => Some(t)
    case AdvanceTake(t, _) => Some(t)
    case AdvanceAcquire(t, _) => Some(t)
    case AdvancePutBack(t, _) => Some(t)
    case AdvanceEnqueue(t, _) => Some(t)
    case ChatAcquire(t) => Some(t)
    case ChatBody(t) => Some(t)
    case ChatRelease(t) => Some(t)
    case _ => None
  }

  predicate Running(p: Point) {
    p.RunBody? || p.RunRelease? || p.RunForget?
  }

  predicate Chatting(p: Point) {
    p.ChatAcquire? || p.ChatBody? || p.ChatRelease?
  }

  /** From the check of `_dispatch_task_now`, or from the acquire of a chat, to the
      release. */
  predicate InFlight(p: Point) {
    p.DispatchCheck? || p.DispatchStart? || p.RunBody? || p.RunRelease? || p.ChatBody? || p.ChatRelease?
  }

  /** The points that have the dispatch arguments in a local variable. */
  predicate HasArguments(p: Point) {
    p.CreateAcquire? || p.CreatePending? || p.ChatAcquire? || InFlight(p) || p.RunForget? || p.AdvanceAcquire?
      || p.AdvancePutBack?
  }

  predicate InQueue(b: Board, t: TaskId, s: Scope) {
    t in Waiting(b, s)
  }

  predicate Distinct(q: seq<TaskId>) {
    forall t :: t in q ==> multiset(q)[t] == 1
  }

  // --------------------------------------------------------------- invariant

  /** No two threads are busy with one task. */
  ghost predicate OneThread(m: Machine) {
    forall x, y ::
      x in m.threads && y in m.threads && At(m.threads[x]).Some? && At(m.threads[x]) == At(m.threads[y]) ==> x == y
  }

  ghost predicate KnownPoint(b: Board, p: Point) {
    && (At(p).Some? ==> At(p).value in b.tasks)
    && (p.StopQueued? || p.StopRemove? || p.StopRunning? ==> p.t in b.tasks)
    && (p.AdvanceCancelled? || p.AdvanceTake? || p.AdvanceAcquire? || p.AdvancePutBack? || p.AdvanceEnqueue? ==>
          NeedsLock(b, p.t) && p.s == ScopeOf(b, p.t))
    && (p.CreatePending? || p.CreateEnqueue? || Chatting(p) ==> NeedsLock(b, p.t))
    && p != Idle
  }

  /** Threads and sets speak of tasks that were created, and a scope that a
      thread carries along is the scope of its task. */
  ghost predicate Known(m: Machine) {
    && (forall x :: x in m.threads ==> KnownPoint(m.b, m.threads[x]))
    && m.b.cancelled <= m.b.tasks.Keys
    && (forall t: TaskId :: t in m.b.pending ==> NeedsLock(m.b, t) && m.b.pending[t] == ScopeOf(m.b, t))
    && (forall s, t: TaskId :: InQueue(m.b, t, s) ==> NeedsLock(m.b, t) && ScopeOf(m.b, t) == s)
  }

  /** A waiting task waits once and no thread is busy with it. */
  ghost predicate WaitingOk(m: Machine) {
    && (forall s :: Distinct(Waiting(m.b, s)))
    && (forall s, t: TaskId, x :: InQueue(m.b, t, s) && x in m.threads ==> At(m.threads[x]) != Some(t))
  }

  /** Kept arguments are nobody's local variable. */
  ghost predicate PendingOk(m: Machine) {
    forall x :: x in m.threads && HasArguments(m.threads[x]) ==> m.threads[x].t !in m.b.pending
  }

  /** Each run thread started is for another task, which is then nowhere else. */
  ghost predicate StartedOk(m: Machine) {
    && Distinct(m.b.started)
    && (forall t: TaskId :: t in m.b.started ==> t in m.b.tasks && t !in m.b.pending)
    && (forall t: TaskId, s :: t in m.b.started ==> !InQueue(m.b, t, s))
    && (forall x :: x in m.threads && At(m.threads[x]).Some? ==>
          (At(m.threads[x]).value in m.b.started <==> Running(m.threads[x])))
  }

  /** A lock-needing task in flight holds its scope. */
  ghost predicate FlightOk(m: Machine) {
    forall x :: x in m.threads && InFlight(m.threads[x]) && NeedsLock(m.b, m.threads[x].t) ==>
      var s := ScopeOf(m.b, m.threads[x].t);
      s in m.b.lock && m.b.lock[s] == m.threads[x].t
  }

  ghost predicate Holder(m: Machine, s: Scope, x: ThreadId) {
    && x in m.threads && InFlight(m.threads[x]) && s in m.b.lock && m.threads[x].t == m.b.lock[s]
    && NeedsLock(m.b, m.b.lock[s]) && ScopeOf(m.b, m.b.lock[s]) == s
  }

  /** No lock is held for anything but a task in flight. */
  ghost predicate HeldOk(m: Machine) {
    forall s :: s in m.b.lock ==> exists x :: Holder(m, s, x)
  }

  ghost predicate Inv(m: Machine) {
    OneThread(m) && Known(m) && WaitingOk(m) && PendingOk(m) && StartedOk(m) && FlightOk(m) && HeldOk(m)
  }

  // ------------------------------------------------- what one step can change

  /** Where a thread at `p` goes next, with a started run as its continuation. */
  function Goes(b: Board, p: Point): Point {
    if p.DispatchStart? then RunBody(p.t) else StepFrom(b, p).1
  }

  predicate Acquires(b: Board, p: Point) {
    || (p.CreateAcquire? && NeedsLock(b, p.t) && ScopeOf(b, p.t) !in b.lock)
    || (p.ChatAcquire? && ScopeOf(b, p.t) !in b.lock)
    || (p.AdvanceAcquire? && p.s !in b.lock)
  }

  function LockScope(b: Board, p: Point): Scope {
    if p.AdvanceAcquire? then p.s else if p.CreateAcquire? || p.ChatAcquire? then ScopeOf(b, p.t) else LegacyShared
  }

  predicate Enqueues(p: Point) {
    p.CreateEnqueue? || p.AdvanceEnqueue?
  }

  /** A thread becomes busy only with the task it pops. */
  lemma BusyAfter(b: Board, p: Point)
    ensures var q := Goes(b, p);
      At(q).None? || At(q) == At(p) || (p.AdvancePop? && InQueue(b, At(q).value, p.s) && b.queue[p.s][0] == At(q).value)
    ensures Enqueues(p) ==> Goes(b, p) == Idle
  {
  }

  lemma SetsAfter(b: Board, p: Point)
    requires KnownPoint(b, p)
    ensures var n := StepFrom(b, p).0;
      && n.tasks == b.tasks && n.cancelled <= b.cancelled + (if p.StopQueued? || p.StopRunning? then {p.t} else {})
      && (forall t: TaskId :: t in n.pending ==>
            (t in b.pending && n.pending[t] == b.pending[t]) || (NeedsLock(b, t) && n.pending[t] == ScopeOf(b, t)))
  {
  }

  lemma PointAfter(b: Board, p: Point)
    requires KnownPoint(b, p)
    requires p.AdvanceTake? && p.t in b.pending ==> b.pending[p.t] == ScopeOf(b, p.t)
    requires p.AdvancePop? && Waiting(b, p.s) != [] ==>
      NeedsLock(b, b.queue[p.s][0]) && ScopeOf(b, b.queue[p.s][0]) == p.s
    ensures Goes(b, p) == Idle || KnownPoint(StepFrom(b, p).0, Goes(b, p))
  {
  }

  lemma PopDistinct(q: seq<TaskId>)
    requires q != [] && Distinct(q)
    ensures Distinct(q[1..]) && q[0] !in q[1..]
  {
    assert q == [q[0]] + q[1..];
    assert multiset(q) == multiset([q[0]]) + multiset(q[1..]);
    assert q[0] in q;
    forall t | t in q[1..] ensures multiset(q[1..])[t] == 1 { assert t in q; }
  }

  lemma AppendDistinct(q: seq<TaskId>, t: TaskId)
    requires Distinct(q) && t !in q
    ensures Distinct(q + [t])
  {
    assert multiset(q + [t]) == multiset(q) + multiset([t]);
  }

  lemma PopQueue(b: Board, p: Point, s: Scope)
    requires p.AdvancePop? && Distinct(Waiting(b, s))
    ensures var n := StepFrom(b, p).0;
      Distinct(Waiting(n, s)) && forall t: TaskId :: InQueue(n, t, s) ==> InQueue(b, t, s)
  {
    if p.s == s && Waiting(b, s) != [] { PopDistinct(Waiting(b, s)); }
  }

  lemma RemoveQueue(b: Board, p: Point, s: Scope)
    requires p.StopRemove? && Distinct(Waiting(b, s))
    ensures var n := StepFrom(b, p).0;
      Distinct(Waiting(n, s)) && forall t: TaskId :: InQueue(n, t, s) ==> InQueue(b, t, s)
  {
    if p.s == s { WithoutRemoves(Waiting(b, s), p.t); }
  }

  lemma AppendQueue(b: Board, p: Point, s: Scope)
    requires Enqueues(p) && Distinct(Waiting(b, s)) && !InQueue(b, p.t, s)
    ensures var n := StepFrom(b, p).0;
      Distinct(Waiting(n, s)) && forall t: TaskId :: InQueue(n, t, s) ==> InQueue(b, t, s) || t == p.t
  {
    AppendDistinct(Waiting(b, s), p.t);
  }

  lemma SameQueue(b: Board, p: Point)
    requires !p.AdvancePop? && !p.StopRemove? && !Enqueues(p)
    ensures StepFrom(b, p).0.queue == b.queue
  {
  }

  /** A list gains only the task the thread was busy with. */
  lemma QueueAfter(b: Board, p: Point, s: Scope)
    requires Distinct(Waiting(b, s)) && (At(p).Some? ==> !InQueue(b, At(p).value, s))
    ensures var n := StepFrom(b, p).0;
      && Distinct(Waiting(n, s))
      && (forall t: TaskId :: InQueue(n, t, s) ==> InQueue(b, t, s) || (Enqueues(p) && At(p) == Some(t)))
  {
    hide StepFrom, Distinct;
    if p.AdvancePop? {
      PopQueue(b, p, s);
    } else if p.StopRemove? {
      RemoveQueue(b, p, s);
    } else if Enqueues(p) {
      AppendQueue(b, p, s);
    } else {
      SameQueue(b, p);
    }
  }

  /** Arguments move between the pending map and one thread. */
  lemma ArgumentsAfter(b: Board, p: Point)
    requires HasArguments(p) ==> p.t !in b.pending
    ensures var n, q := StepFrom(b, p).0, Goes(b, p);
      && (forall t: TaskId :: t in n.pending ==> t in b.pending || (HasArguments(p) && t == p.t))
      && (HasArguments(q) ==> q.t !in n.pending && At(p) == Some(q.t))
  {
  }

  lemma StartedAfter(b: Board, p: Point)
    ensures var n, q := StepFrom(b, p).0, Goes(b, p);
      && n.started == (if p.DispatchStart? then b.started + [p.t] else b.started)
      && (At(q).Some? && At(q) == At(p) && !p.DispatchStart? ==> (Running(q) <==> Running(p)))
      && (At(q).Some? && At(q) != At(p) ==> !Running(q))
  {
  }

  /** A lock is taken by the task that then is in flight, and freed by the task
      that then is not. */
  lemma LockAfter(b: Board, p: Point)
    ensures var n, q := StepFrom(b, p).0, Goes(b, p);
      && (forall s :: s in n.lock && !(s in b.lock && n.lock[s] == b.lock[s]) ==>
            Acquires(b, p) && s !in b.lock && n.lock[s] == p.t && InFlight(q) && q.t == p.t && s == LockScope(b, p))
      && (forall s :: s in b.lock && s !in n.lock ==>
            b.lock[s] == p.t && (p.DispatchCheck? || p.RunRelease? || p.ChatRelease?) && !InFlight(q))
  {
  }

  lemma FlightAfter(b: Board, p: Point)
    ensures var n, q := StepFrom(b, p).0, Goes(b, p);
      && (InFlight(q) ==>
            (InFlight(p) || Acquires(b, p) || (p.CreateAcquire? && !NeedsLock(b, p.t))) && At(p) == Some(q.t))
      && (InFlight(q) && Acquires(b, p) ==> LockScope(b, p) in n.lock && n.lock[LockScope(b, p)] == p.t)
      && (InFlight(p) && !InFlight(q) && NeedsLock(b, p.t) ==>
            ScopeOf(b, p.t) !in n.lock || n.lock[ScopeOf(b, p.t)] != p.t)
  {
  }

  // ---------------------------------------------------------- every step keeps

  /** The next state of thread `x`, whichever kind of step it makes. */
  lemma StepMoves(m: Machine, x: ThreadId, spawn: ThreadId) returns (y: ThreadId)
    requires x in m.threads
    ensures y == x || y !in m.threads
    ensures Next(m, Step(x, spawn)) == m ||
      Next(m, Step(x, spawn)) == Move(m, x, y, StepFrom(m.b, m.threads[x]).0, Goes(m.b, m.threads[x]))
  {
    y := if m.threads[x].DispatchStart? && spawn !in m.threads then spawn else x;
  }

  lemma MoveKeepsOneThread(m: Machine, x: ThreadId, y: ThreadId)
    requires OneThread(m) && WaitingOk(m) && x in m.threads && (y == x || y !in m.threads)
    ensures OneThread(Move(m, x, y, StepFrom(m.b, m.threads[x]).0, Goes(m.b, m.threads[x])))
  {
    BusyAfter(m.b, m.threads[x]);
    hide StepFrom, Goes;
  }

  lemma MoveKeepsKnownQueues(m: Machine, x: ThreadId, s: Scope, t: TaskId)
    requires WaitingOk(m) && Known(m) && x in m.threads && InQueue(StepFrom(m.b, m.threads[x]).0, t, s)
    ensures var b := StepFrom(m.b, m.threads[x]).0; NeedsLock(b, t) && ScopeOf(b, t) == s
  {
    var p := m.threads[x];
    assert KnownPoint(m.b, p);
    SetsAfter(m.b, p);
    if !InQueue(m.b, t, s) {
      QueueAfter(m.b, p, s);
      EnqueuesInScope(m.b, p, s, t);
    }
    hide StepFrom, Distinct;
  }

  lemma MoveKeepsKnownPoints(m: Machine, x: ThreadId, y: ThreadId, z: ThreadId)
    requires Known(m) && x in m.threads && (y == x || y !in m.threads)
    requires z in Move(m, x, y, StepFrom(m.b, m.threads[x]).0, Goes(m.b, m.threads[x])).threads
    ensures var n := Move(m, x, y, StepFrom(m.b, m.threads[x]).0, Goes(m.b, m.threads[x]));
      KnownPoint(n.b, n.threads[z])
  {
    var p := m.threads[x];
    var b, q := StepFrom(m.b, p).0, Goes(m.b, p);
    assert KnownPoint(m.b, p);
    if p.AdvancePop? && Waiting(m.b, p.s) != [] { assert InQueue(m.b, Waiting(m.b, p.s)[0], p.s); }
    SetsAfter(m.b, p);
    PointAfter(m.b, p);
    hide StepFrom, Goes, InQueue;
    if z != y || q == Idle { assert KnownPoint(m.b, m.threads[z]); }
  }

  lemma MoveKeepsKnown(m: Machine, x: ThreadId, y: ThreadId)
    requires WaitingOk(m) && Known(m) && x in m.threads && (y == x || y !in m.threads)
    ensures Known(Move(m, x, y, StepFrom(m.b, m.threads[x]).0, Goes(m.b, m.threads[x])))
  {
    hide StepFrom, Goes, InQueue, WaitingOk;
    var b, q := StepFrom(m.b, m.threads[x]).0, Goes(m.b, m.threads[x]);
    var n := Move(m, x, y, b, q);
    assert KnownPoint(m.b, m.threads[x]);
    SetsAfter(m.b, m.threads[x]);
    forall z | z in n.threads ensures KnownPoint(b, n.threads[z]) {
      MoveKeepsKnownPoints(m, x, y, z);
    }
    forall s, t: TaskId | InQueue(b, t, s) ensures NeedsLock(b, t) && ScopeOf(b, t) == s {
      MoveKeepsKnownQueues(m, x, s, t);
    }
  }

  lemma EnqueuesInScope(b: Board, p: Point, s: Scope, t: TaskId)
    requires KnownPoint(b, p) && Enqueues(p) && At(p) == Some(t) && !InQueue(b, t, s) && InQueue(StepFrom(b, p).0, t, s)
    ensures NeedsLock(b, t) && ScopeOf(b, t) == s
  {
  }

  lemma PoppedIsOut(b: Board, p: Point, s: Scope, t: TaskId)
    requires p.AdvancePop? && Waiting(b, p.s) != [] && Distinct(Waiting(b, p.s)) && InQueue(StepFrom(b, p).0, t, s)
    requires forall r, u: TaskId :: InQueue(b, u, r) ==> ScopeOf(b, u) == r
    ensures At(Goes(b, p)) != Some(t)
  {
    PopDistinct(Waiting(b, p.s));
    assert InQueue(b, b.queue[p.s][0], p.s);
    if s != p.s { assert InQueue(b, t, s); }
  }

  lemma MoveKeepsWaiting(m: Machine, x: ThreadId, y: ThreadId)
    requires OneThread(m) && Known(m) && WaitingOk(m) && x in m.threads && (y == x || y !in m.threads)
    ensures WaitingOk(Move(m, x, y, StepFrom(m.b, m.threads[x]).0, Goes(m.b, m.threads[x])))
  {
    var p := m.threads[x];
    var b, q := StepFrom(m.b, p).0, Goes(m.b, p);
    var n := Move(m, x, y, b, q);
    BusyAfter(m.b, p);
    forall s ensures Distinct(Waiting(b, s)) { QueueAfter(m.b, p, s); }
    forall s, t: TaskId, z | InQueue(b, t, s) && z in n.threads ensures At(n.threads[z]) != Some(t) {
      QueueAfter(m.b, p, s);
      if InQueue(m.b, t, s) {
        assert At(p) != Some(t);
        if z == y && q != Idle && p.AdvancePop? && Waiting(m.b, p.s) != [] { PoppedIsOut(m.b, p, s, t); }
      }
    }
  }

  lemma MoveKeepsPending(m: Machine, x: ThreadId, y: ThreadId)
    requires OneThread(m) && PendingOk(m) && x in m.threads && (y == x || y !in m.threads)
    ensures PendingOk(Move(m, x, y, StepFrom(m.b, m.threads[x]).0, Goes(m.b, m.threads[x])))
  {
    ArgumentsAfter(m.b, m.threads[x]);
    hide StepFrom, Goes;
  }

  lemma MoveKeepsFlight(m: Machine, x: ThreadId, y: ThreadId)
    requires OneThread(m) && Known(m) && FlightOk(m) && x in m.threads && (y == x || y !in m.threads)
    ensures FlightOk(Move(m, x, y, StepFrom(m.b, m.threads[x]).0, Goes(m.b, m.threads[x])))
  {
    LockAfter(m.b, m.threads[x]);
    FlightAfter(m.b, m.threads[x]);
    assert KnownPoint(m.b, m.threads[x]);
    SetsAfter(m.b, m.threads[x]);
    hide StepFrom, Goes;
  }

  lemma StillHolder(m: Machine, x: ThreadId, y: ThreadId, s: Scope, z: ThreadId)
    requires OneThread(m) && Known(m) && Holder(m, s, z) && x in m.threads && (y == x || y !in m.threads)
    requires var b := StepFrom(m.b, m.threads[x]).0; s in b.lock && b.lock[s] == m.b.lock[s]
    requires FlightOk(m)
    ensures Holder(Move(m, x, y, StepFrom(m.b, m.threads[x]).0, Goes(m.b, m.threads[x])), s, if z == x then y else z)
  {
    LockAfter(m.b, m.threads[x]);
    FlightAfter(m.b, m.threads[x]);
    assert KnownPoint(m.b, m.threads[x]);
    SetsAfter(m.b, m.threads[x]);
    hide StepFrom, Goes;
  }

  lemma NewHolder(m: Machine, x: ThreadId, y: ThreadId, s: Scope)
    requires Known(m) && x in m.threads && (y == x || y !in m.threads)
    requires var b := StepFrom(m.b, m.threads[x]).0; s in b.lock && !(s in m.b.lock && b.lock[s] == m.b.lock[s])
    ensures Holder(Move(m, x, y, StepFrom(m.b, m.threads[x]).0, Goes(m.b, m.threads[x])), s, y)
  {
    LockAfter(m.b, m.threads[x]);
    FlightAfter(m.b, m.threads[x]);
    assert KnownPoint(m.b, m.threads[x]);
    SetsAfter(m.b, m.threads[x]);
    hide StepFrom, Goes;
  }

  lemma MoveKeepsHeld(m: Machine, x: ThreadId, y: ThreadId)
    requires OneThread(m) && Known(m) && HeldOk(m) && FlightOk(m) && x in m.threads && (y == x || y !in m.threads)
    ensures HeldOk(Move(m, x, y, StepFrom(m.b, m.threads[x]).0, Goes(m.b, m.threads[x])))
  {
    hide StepFrom, Goes, OneThread, Known, FlightOk;
    var b, q := StepFrom(m.b, m.threads[x]).0, Goes(m.b, m.threads[x]);
    var n := Move(m, x, y, b, q);
    forall s | s in b.lock ensures exists z :: Holder(n, s, z) {
      if s in m.b.lock && b.lock[s] == m.b.lock[s] {
        var z :| Holder(m, s, z);
        StillHolder(m, x, y, s, z);
        assert Holder(n, s, if z == x then y else z);
      } else {
        NewHolder(m, x, y, s);
      }
    }
  }

  lemma MoveKeepsStartedBoard(m: Machine, x: ThreadId)
    requires Known(m) && WaitingOk(m) && PendingOk(m) && StartedOk(m) && x in m.threads
    ensures var b := StepFrom(m.b, m.threads[x]).0;
      && Distinct(b.started)
      && (forall t: TaskId :: t in b.started ==> t in b.tasks && t !in b.pending)
  {
    var p := m.threads[x];
    assert KnownPoint(m.b, p);
    StartedAfter(m.b, p);
    ArgumentsAfter(m.b, p);
    SetsAfter(m.b, p);
    hide StepFrom, Goes;
    if p.DispatchStart? { AppendDistinct(m.b.started, p.t); }
  }

  lemma MoveKeepsStartedQueues(m: Machine, x: ThreadId, s: Scope, t: TaskId)
    requires WaitingOk(m) && StartedOk(m) && x in m.threads && t in StepFrom(m.b, m.threads[x]).0.started
    ensures !InQueue(StepFrom(m.b, m.threads[x]).0, t, s)
  {
    var p := m.threads[x];
    StartedAfter(m.b, p);
    QueueAfter(m.b, p, s);
    hide StepFrom;
  }

  lemma MoveKeepsStartedThreads(m: Machine, x: ThreadId, y: ThreadId)
    requires OneThread(m) && WaitingOk(m) && StartedOk(m) && x in m.threads && (y == x || y !in m.threads)
    ensures var n := Move(m, x, y, StepFrom(m.b, m.threads[x]).0, Goes(m.b, m.threads[x]));
      forall z :: z in n.threads && At(n.threads[z]).Some? ==>
        (At(n.threads[z]).value in n.b.started <==> Running(n.threads[z]))
  {
    var p := m.threads[x];
    BusyAfter(m.b, p);
    StartedAfter(m.b, p);
    hide StepFrom, Goes, Distinct;
  }

  lemma MoveKeepsStarted(m: Machine, x: ThreadId, y: ThreadId)
    requires OneThread(m) && Known(m) && WaitingOk(m) && PendingOk(m) && StartedOk(m) && x in m.threads
      && (y == x || y !in m.threads)
    ensures StartedOk(Move(m, x, y, StepFrom(m.b, m.threads[x]).0, Goes(m.b, m.threads[x])))
  {
    var b := StepFrom(m.b, m.threads[x]).0;
    MoveKeepsStartedBoard(m, x);
    MoveKeepsStartedThreads(m, x, y);
    forall t: TaskId, s | t in b.started ensures !InQueue(b, t, s) {
      MoveKeepsStartedQueues(m, x, s, t);
    }
    hide StepFrom, Goes, OneThread, Known, WaitingOk, PendingOk;
  }

  lemma StepKeepsInv(m: Machine, x: ThreadId, spawn: ThreadId)
    requires Inv(m)
    ensures Inv(Next(m, Step(x, spawn)))
  {
    if x in m.threads {
      var y := StepMoves(m, x, spawn);
      MoveKeepsOneThread(m, x, y);
      MoveKeepsKnown(m, x, y);
      MoveKeepsWaiting(m, x, y);
      MoveKeepsPending(m, x, y);
      MoveKeepsStarted(m, x, y);
      MoveKeepsFlight(m, x, y);
      MoveKeepsHeld(m, x, y);
      hide OneThread, Known, WaitingOk, PendingOk, StartedOk, FlightOk, HeldOk, StepFrom, Goes;
    }
  }

  lemma NewThreadKeepsHeld(m: Machine, n: Machine, x: ThreadId)
    requires HeldOk(m) && Known(m) && x !in m.threads && x in n.threads && n.threads == m.threads[x := n.threads[x]]
    requires n.b.lock == m.b.lock && forall t :: t in m.b.tasks ==> t in n.b.tasks && n.b.tasks[t] == m.b.tasks[t]
    ensures HeldOk(n)
  {
    forall s | s in n.b.lock ensures exists z :: Holder(n, s, z) {
      var z :| Holder(m, s, z);
      assert Holder(n, s, z);
    }
  }

  lemma StopKeepsInv(m: Machine, x: ThreadId, t: TaskId, seenQueued: bool)
    requires Inv(m)
    ensures Inv(Next(m, Stop(x, t, seenQueued)))
  {
    if x !in m.threads && t in m.b.tasks {
      NewThreadKeepsHeld(m, Next(m, Stop(x, t, seenQueued)), x);
      hide HeldOk;
    }
  }

  /** The points at which a thread begins. */
  predicate Begins(p: Point, t: TaskId, task: Task) {
    p == CreateAcquire(t) || (p == ChatAcquire(t) && task.needsLock)
  }

  lemma ArrivalKeepsKnown(m: Machine, x: ThreadId, t: TaskId, task: Task, p: Point)
    requires Begins(p, t, task)
    requires Known(m) && x !in m.threads && t !in m.b.tasks
    ensures Known(Arrive(m, x, t, task, p))
    ensures forall z :: z in m.threads ==> At(m.threads[z]) != Some(t)
    ensures forall s :: !InQueue(m.b, t, s)
  {
    var n := Arrive(m, x, t, task, p);
    forall z | z in m.threads ensures KnownPoint(n.b, m.threads[z]) && At(m.threads[z]) != Some(t) {
      assert KnownPoint(m.b, m.threads[z]);
    }
    assert forall s, u: TaskId :: InQueue(n.b, u, s) ==> InQueue(m.b, u, s);
  }

  lemma ArrivalKeepsPlaces(m: Machine, x: ThreadId, t: TaskId, task: Task, p: Point)
    requires Begins(p, t, task)
    requires OneThread(m) && WaitingOk(m) && PendingOk(m) && Known(m)
    requires x !in m.threads && t !in m.b.tasks
    ensures OneThread(Arrive(m, x, t, task, p)) && WaitingOk(Arrive(m, x, t, task, p))
      && PendingOk(Arrive(m, x, t, task, p))
  {
    ArrivalKeepsKnown(m, x, t, task, p);
    var n := Arrive(m, x, t, task, p);
    assert n.b.queue == m.b.queue && n.b.pending == m.b.pending && t !in m.b.pending;
    hide Distinct, Known;
    forall s ensures Distinct(Waiting(n.b, s)) {
      assert Waiting(n.b, s) == Waiting(m.b, s);
    }
    forall s, u: TaskId, z | InQueue(n.b, u, s) && z in n.threads ensures At(n.threads[z]) != Some(u) {
      assert InQueue(m.b, u, s);
    }
  }

  lemma ArrivalKeepsStarted(m: Machine, x: ThreadId, t: TaskId, task: Task, p: Point)
    requires Begins(p, t, task)
    requires StartedOk(m) && Known(m) && x !in m.threads && t !in m.b.tasks
    ensures StartedOk(Arrive(m, x, t, task, p))
  {
    ArrivalKeepsKnown(m, x, t, task, p);
    var n := Arrive(m, x, t, task, p);
    hide Distinct, Known;
    forall u: TaskId, s | u in n.b.started ensures !InQueue(n.b, u, s) {
      assert !InQueue(m.b, u, s);
    }
  }

  lemma ArrivalKeepsFlight(m: Machine, x: ThreadId, t: TaskId, task: Task, p: Point)
    requires Begins(p, t, task)
    requires FlightOk(m) && Known(m) && x !in m.threads && t !in m.b.tasks
    ensures FlightOk(Arrive(m, x, t, task, p))
  {
    ArrivalKeepsKnown(m, x, t, task, p);
    var n := Arrive(m, x, t, task, p);
    hide Known;
    forall z | z in n.threads && InFlight(n.threads[z]) && NeedsLock(n.b, n.threads[z].t)
      ensures var s := ScopeOf(n.b, n.threads[z].t); s in n.b.lock && n.b.lock[s] == n.threads[z].t
    {
      assert At(m.threads[z]) != Some(t);
    }
  }

  lemma ArrivalKeepsInv(m: Machine, x: ThreadId, t: TaskId, task: Task, p: Point)
    requires Begins(p, t, task)
    requires Inv(m)
    ensures Inv(Arrive(m, x, t, task, p))
  {
    if x !in m.threads && t !in m.b.tasks {
      NewThreadKeepsHeld(m, Arrive(m, x, t, task, p), x);
      ArrivalKeepsKnown(m, x, t, task, p);
      ArrivalKeepsPlaces(m, x, t, task, p);
      ArrivalKeepsStarted(m, x, t, task, p);
      ArrivalKeepsFlight(m, x, t, task, p);
      hide OneThread, Known, WaitingOk, PendingOk, StartedOk, FlightOk, HeldOk;
    }
  }

  lemma {:induction false} AlwaysInv(actions: seq<Action>)
    ensures Inv(After(actions))
  {
    if actions != [] {
      var m, a := After(actions[..|actions| - 1]), actions[|actions| - 1];
      AlwaysInv(actions[..|actions| - 1]);
      match a
      case Create(x, t, task) => ArrivalKeepsInv(m, x, t, task, CreateAcquire(t));
      case Chat(x, t, scope) => ArrivalKeepsInv(m, x, t, Task(scope, true), ChatAcquire(t));
      case Stop(x, t, seenQueued) => StopKeepsInv(m, x, t, seenQueued);
      case Step(x, spawn) => StepKeepsInv(m, x, spawn);
    }
  }

  // ------------------------------------------------------------- the results

  /** A task is in at most one place: no two threads are busy with it, none while it
      waits, and it waits at most once, in its own scope. */
  lemma OnePlace(actions: seq<Action>, t: TaskId, s: Scope)
    ensures var m := After(actions);
      && (forall x, y ::
            x in m.threads && y in m.threads && At(m.threads[x]) == Some(t) && At(m.threads[y]) == Some(t) ==> x == y)
      && multiset(Waiting(m.b, s))[t] <= 1
      && (t in Waiting(m.b, s) ==> s == ScopeOf(m.b, t) && forall x :: x in m.threads ==> At(m.threads[x]) != Some(t))
  {
    AlwaysInv(actions);
    var m := After(actions);
    if t in Waiting(m.b, s) { assert InQueue(m.b, t, s); }
  }

  /** Each created task is dispatched at most once, and once it is, its arguments
      and its place in the list are gone. */
  lemma DispatchedOnce(actions: seq<Action>, t: TaskId, s: Scope)
    ensures var m := After(actions);
      && multiset(m.b.started)[t] <= 1
      && (t in m.b.started ==> t in m.b.tasks && t !in m.b.pending && t !in Waiting(m.b, s))
  {
    AlwaysInv(actions);
    var m := After(actions);
    if t in m.b.started { assert !InQueue(m.b, t, s); }
  }

  /** Mutual exclusion: of the lock-needing tasks and chats of one scope at most one
      is between its dispatch check, or a chat's acquire, and its release, whatever
      ephemeral tasks release and advance on the shared scope meanwhile. */
  lemma MutualExclusion(actions: seq<Action>, x: ThreadId, y: ThreadId)
    requires var m := After(actions);
      && x in m.threads && y in m.threads && InFlight(m.threads[x]) && InFlight(m.threads[y])
      && NeedsLock(m.b, m.threads[x].t) && NeedsLock(m.b, m.threads[y].t)
      && ScopeOf(m.b, m.threads[x].t) == ScopeOf(m.b, m.threads[y].t)
    ensures x == y
  {
    AlwaysInv(actions);
    var m := After(actions);
    assert At(m.threads[x]) == At(m.threads[y]);
  }

  /** No lock is leaked: every held lock has a thread in flight that will free it. */
  lemma HeldLockHasHolder(actions: seq<Action>, s: Scope)
    requires s in After(actions).b.lock
    ensures exists x :: Holder(After(actions), s, x)
  {
    AlwaysInv(actions);
  }

  // ------------------------------------------------------------ never lost

  ghost predicate InHand(m: Machine, t: TaskId) {
    exists x :: x in m.threads && At(m.threads[x]) == Some(t)
  }

  ghost predicate Queued(m: Machine, t: TaskId) {
    InQueue(m.b, t, ScopeOf(m.b, t)) && t in m.b.pending
  }

  /** The points at which the arguments of the task are in the pending map. */
  predicate ArgumentsKept(p: Point) {
    p.CreateEnqueue? || p.AdvanceCancelled? || p.AdvanceTake? || p.AdvanceEnqueue?
  }

  predicate Stopping(p: Point, t: TaskId) {
    (p.StopQueued? || p.StopRemove? || p.StopRunning?) && p.t == t
  }

  /** Nobody stopped the task, and its arguments are where its place says. */
  ghost predicate Unstopped(m: Machine, t: TaskId) {
    && t in m.b.tasks && t !in m.b.cancelled
    && (forall x :: x in m.threads ==> !Stopping(m.threads[x], t))
    && (forall x :: x in m.threads && At(m.threads[x]) == Some(t) ==>
          !Chatting(m.threads[x]) && (ArgumentsKept(m.threads[x]) ==> t in m.b.pending))
    && (InQueue(m.b, t, ScopeOf(m.b, t)) ==> t in m.b.pending)
    && (t in m.b.started || InHand(m, t) || InQueue(m.b, t, ScopeOf(m.b, t)))
  }

  /** What a step leaves of a task nobody stops. */
  lemma NotStoppedAfter(b: Board, p: Point, t: TaskId)
    requires t !in b.cancelled && !Stopping(p, t)
    ensures var n, q := StepFrom(b, p).0, Goes(b, p);
      && t !in n.cancelled && !Stopping(q, t)
      && (t in b.pending && p != AdvanceTake(t, if p.AdvanceTake? then p.s else LegacyShared) ==> t in n.pending)
  {
  }

  /** A thread that has the task keeps it, starts it, or puts it on the list. */
  lemma HandAfter(b: Board, p: Point, t: TaskId)
    requires KnownPoint(b, p) && At(p) == Some(t) && t !in b.cancelled && !Chatting(p) && !p.RunForget?
    requires ArgumentsKept(p) ==> t in b.pending
    requires t in b.pending ==> b.pending[t] == ScopeOf(b, t)
    ensures var n, q := StepFrom(b, p).0, Goes(b, p);
      if At(q) == Some(t) then !Chatting(q) && (ArgumentsKept(q) ==> t in n.pending)
      else At(q).None? && InQueue(n, t, ScopeOf(n, t)) && t in n.pending
  {
  }

  /** A list loses only its head, to the thread that pops it, and what is stopped. */
  lemma ListKeeps(b: Board, p: Point, t: TaskId, s: Scope)
    requires InQueue(b, t, s) && !Stopping(p, t)
    ensures var n, q := StepFrom(b, p).0, Goes(b, p);
      InQueue(n, t, s) || (At(q) == Some(t) && q.AdvanceCancelled?)
  {
    hide Without;
    if p.StopRemove? && p.s == s { WithoutRemoves(Waiting(b, s), p.t); }
    if p.AdvancePop? && p.s == s { assert Waiting(b, s) == [Waiting(b, s)[0]] + Waiting(b, s)[1..]; }
  }

  lemma UnstoppedPlace(m: Machine, x: ThreadId, y: ThreadId, t: TaskId)
    requires Inv(m) && Unstopped(m, t) && x in m.threads && (y == x || y !in m.threads)
    ensures var n := Move(m, x, y, StepFrom(m.b, m.threads[x]).0, Goes(m.b, m.threads[x]));
      t in n.b.started || InHand(n, t) || InQueue(n.b, t, ScopeOf(n.b, t))
  {
    var p := m.threads[x];
    var b, q := StepFrom(m.b, p).0, Goes(m.b, p);
    var n := Move(m, x, y, b, q);
    assert KnownPoint(m.b, p);
    SetsAfter(m.b, p);
    StartedAfter(m.b, p);
    if At(p) == Some(t) && !p.RunForget? { HandAfter(m.b, p, t); }
    if InQueue(m.b, t, ScopeOf(m.b, t)) { ListKeeps(m.b, p, t, ScopeOf(m.b, t)); }
    hide StepFrom, Goes;
    if t !in m.b.started {
      if InQueue(m.b, t, ScopeOf(m.b, t)) {
        if !InQueue(b, t, ScopeOf(b, t)) { assert At(n.threads[y]) == Some(t); }
      } else {
        var z :| z in m.threads && At(m.threads[z]) == Some(t);
        if z != x {
          assert At(n.threads[z]) == Some(t);
        } else if At(q) == Some(t) {
          assert At(n.threads[y]) == Some(t);
        }
      }
    }
  }

  lemma UnstoppedArguments(m: Machine, x: ThreadId, y: ThreadId, t: TaskId)
    requires Inv(m) && Unstopped(m, t) && x in m.threads && (y == x || y !in m.threads)
    ensures var n := Move(m, x, y, StepFrom(m.b, m.threads[x]).0, Goes(m.b, m.threads[x]));
      && (forall z :: z in n.threads && At(n.threads[z]) == Some(t) ==>
            !Chatting(n.threads[z]) && (ArgumentsKept(n.threads[z]) ==> t in n.b.pending))
      && (InQueue(n.b, t, ScopeOf(n.b, t)) ==> t in n.b.pending)
  {
    var p := m.threads[x];
    var b, q := StepFrom(m.b, p).0, Goes(m.b, p);
    var n := Move(m, x, y, b, q);
    assert KnownPoint(m.b, p);
    SetsAfter(m.b, p);
    BusyAfter(m.b, p);
    NotStoppedAfter(m.b, p, t);
    if At(p) == Some(t) && !p.RunForget? { HandAfter(m.b, p, t); }
    QueueAfter(m.b, p, ScopeOf(m.b, t));
    PoppedPoint(m.b, p);
    hide StepFrom, Goes, Distinct;
    if InQueue(b, t, ScopeOf(b, t)) && At(p) == Some(t) {
      assert !InQueue(m.b, t, ScopeOf(m.b, t));
    }
  }

  lemma PoppedPoint(b: Board, p: Point)
    ensures p.AdvancePop? && At(Goes(b, p)).Some? ==> Goes(b, p).AdvanceCancelled?
    ensures p.RunForget? ==> At(Goes(b, p)).None? && StepFrom(b, p).0.queue == b.queue
  {
  }

  lemma UnstoppedMove(m: Machine, x: ThreadId, y: ThreadId, t: TaskId)
    requires Inv(m) && Unstopped(m, t) && x in m.threads && (y == x || y !in m.threads)
    ensures Unstopped(Move(m, x, y, StepFrom(m.b, m.threads[x]).0, Goes(m.b, m.threads[x])), t)
  {
    assert KnownPoint(m.b, m.threads[x]);
    UnstoppedPlace(m, x, y, t);
    UnstoppedArguments(m, x, y, t);
    NotStoppedAfter(m.b, m.threads[x], t);
    SetsAfter(m.b, m.threads[x]);
    hide StepFrom, Goes, InHand, Inv, InQueue;
  }

  /** A new thread with another task, or to stop another one. */
  lemma UnstoppedNewThread(m: Machine, n: Machine, x: ThreadId, p: Point, t: TaskId)
    requires Unstopped(m, t) && x !in m.threads && n.threads == m.threads[x := p] && !Stopping(p, t) && At(p) != Some(t)
    requires n.b.queue == m.b.queue && n.b.pending == m.b.pending && n.b.started == m.b.started
      && n.b.cancelled == m.b.cancelled
    requires t in n.b.tasks && n.b.tasks[t] == m.b.tasks[t]
    ensures Unstopped(n, t)
  {
    assert InQueue(n.b, t, ScopeOf(n.b, t)) <==> InQueue(m.b, t, ScopeOf(m.b, t));
    if InHand(m, t) {
      var z :| z in m.threads && At(m.threads[z]) == Some(t);
      assert At(n.threads[z]) == Some(t);
    }
  }

  lemma UnstoppedArrival(m: Machine, a: Action, t: TaskId)
    requires Unstopped(m, t) && (!a.Step? || a.x !in m.threads) && !(a.Stop? && a.t == t)
    ensures Unstopped(Next(m, a), t)
  {
    var n := Next(m, a);
    assert t in m.b.tasks;
    hide StepFrom, Unstopped;
    if n != m {
      UnstoppedNewThread(m, n, a.x, n.threads[a.x], t);
    }
  }

  lemma UnstoppedAtBirth(m: Machine, x: ThreadId, t: TaskId, task: Task)
    requires Inv(m) && x !in m.threads && t !in m.b.tasks
    ensures Unstopped(Next(m, Create(x, t, task)), t)
  {
    hide StepFrom;
    var n := Next(m, Create(x, t, task));
    forall z | z in m.threads ensures !Stopping(m.threads[z], t) && At(m.threads[z]) != Some(t) {
      assert KnownPoint(m.b, m.threads[z]);
    }
    assert forall s :: !InQueue(m.b, t, s);
    assert InQueue(n.b, t, ScopeOf(n.b, t)) ==> InQueue(m.b, t, ScopeOf(n.b, t));
    assert At(n.threads[x]) == Some(t);
  }

  lemma {:induction false} StaysUnstopped(actions: seq<Action>, more: seq<Action>, t: TaskId)
    requires Unstopped(After(actions), t)
    requires forall k :: 0 <= k < |more| && more[k].Stop? ==> more[k].t != t
    ensures Unstopped(After(actions + more), t)
  {
    if more == [] {
      assert actions + more == actions;
    } else {
      var before, a := actions + more[..|more| - 1], more[|more| - 1];
      assert (actions + more)[..|actions + more| - 1] == before;
      StaysUnstopped(actions, more[..|more| - 1], t);
      AlwaysInv(before);
      var m := After(before);
      hide Unstopped, Inv;
      if a.Step? && a.x in m.threads {
        var y := StepMoves(m, a.x, a.spawn);
        UnstoppedMove(m, a.x, y, t);
      } else {
        UnstoppedArrival(m, a, t);
      }
    }
  }

  /** A task nobody stops is never lost: after its creation, in every interleaving,
      it is at exactly one of three places. Its run was started; or it was not and
      one thread has it; or it waits, once and with its arguments kept. */
  lemma NeverLost(actions: seq<Action>, x: ThreadId, t: TaskId, task: Task, more: seq<Action>)
    requires x !in After(actions).threads && t !in After(actions).b.tasks
    requires forall k :: 0 <= k < |more| && more[k].Stop? ==> more[k].t != t
    ensures var m := After(actions + [Create(x, t, task)] + more);
      var started, inHand, queued := t in m.b.started, t !in m.b.started && InHand(m, t), Queued(m, t);
      && (started || inHand || queued) && !(started && queued) && !(inHand && queued)
      && (queued ==> multiset(Waiting(m.b, ScopeOf(m.b, t)))[t] == 1)
      && (t in Waiting(m.b, ScopeOf(m.b, t)) ==> queued)
  {
    var born := actions + [Create(x, t, task)];
    AlwaysInv(actions);
    UnstoppedAtBirth(After(actions), x, t, task);
    assert born[..|born| - 1] == actions;
    StaysUnstopped(born, more, t);
    AlwaysInv(born + more);
    hide After, Next;
    var m := After(born + more);
    NotBoth(m, t);
  }

  lemma NotBoth(m: Machine, t: TaskId)
    requires WaitingOk(m)
    ensures InQueue(m.b, t, ScopeOf(m.b, t)) ==> !InHand(m, t)
  {
  }

  // ------------------------------------------------------------ cancellation

  /** The task is nowhere: not waiting and no thread busy with it. */
  ghost predicate Gone(m: Machine, t: TaskId) {
    && (forall x :: x in m.threads ==> At(m.threads[x]) != Some(t))
    && (forall s :: !InQueue(m.b, t, s))
  }

  /** Cancelled before its dispatch check, or dropped for it. */
  ghost predicate Doomed(m: Machine, t: TaskId) {
    && t in m.b.tasks && t !in m.b.started
    && (forall x :: x in m.threads ==> m.threads[x] != DispatchStart(t))
    && (t in m.b.cancelled || Gone(m, t))
  }

  lemma CancelledAfter(b: Board, p: Point, t: TaskId)
    requires t in b.cancelled
    ensures var n, q := StepFrom(b, p).0, Goes(b, p);
      && q != DispatchStart(t)
      && (t !in n.cancelled ==> At(p) == Some(t) && At(q).None? && !Enqueues(p))
      && (t in n.started ==> t in b.started || p == DispatchStart(t))
  {
  }

  lemma DoomedStep(m: Machine, x: ThreadId, y: ThreadId, t: TaskId)
    requires Inv(m) && Doomed(m, t) && x in m.threads && (y == x || y !in m.threads)
    ensures Doomed(Move(m, x, y, StepFrom(m.b, m.threads[x]).0, Goes(m.b, m.threads[x])), t)
  {
    var p := m.threads[x];
    var b, q := StepFrom(m.b, p).0, Goes(m.b, p);
    var n := Move(m, x, y, b, q);
    assert KnownPoint(m.b, p);
    SetsAfter(m.b, p);
    StartedAfter(m.b, p);
    BusyAfter(m.b, p);
    if t in m.b.cancelled { CancelledAfter(m.b, p, t); }
    hide StepFrom, Goes, Distinct;
    if t !in b.cancelled {
      forall s ensures !InQueue(b, t, s) {
        QueueAfter(m.b, p, s);
      }
      assert Gone(n, t);
    }
  }

  lemma DoomedArrival(m: Machine, a: Action, t: TaskId)
    requires Doomed(m, t) && (!a.Step? || a.x !in m.threads)
    ensures Doomed(Next(m, a), t)
  {
    var n := Next(m, a);
    assert n.b.started == m.b.started && n.b.cancelled == m.b.cancelled && n.b.queue == m.b.queue;
    assert forall s :: Waiting(n.b, s) == Waiting(m.b, s);
    if t !in m.b.cancelled {
      assert forall s :: InQueue(n.b, t, s) ==> InQueue(m.b, t, s);
      assert Gone(n, t);
    }
  }

  /** A task that is in the cancelled set before its dispatch check never starts,
      whatever happens next. */
  lemma {:induction false} CancelledNeverStarts(actions: seq<Action>, more: seq<Action>, t: TaskId)
    requires Doomed(After(actions), t)
    ensures Doomed(After(actions + more), t)
  {
    if more == [] {
      assert actions + more == actions;
    } else {
      var before, a := actions + more[..|more| - 1], more[|more| - 1];
      assert (actions + more)[..|actions + more| - 1] == before;
      CancelledNeverStarts(actions, more[..|more| - 1], t);
      AlwaysInv(before);
      var m := After(before);
      hide Doomed, Inv;
      if a.Step? && a.x in m.threads {
        var y := StepMoves(m, a.x, a.spawn);
        DoomedStep(m, a.x, y, t);
      } else {
        DoomedArrival(m, a, t);
      }
    }
  }

  // ---------------------------------------------------------------- progress

  /** The thread will look at the wait list of `s` before it ends. */
  predicate Advancing(b: Board, p: Point, s: Scope) {
    || (p.RunForget? && ScopeOf(b, p.t) == s)
    || ((p.AdvancePop? || p.AdvanceCancelled? || p.AdvanceTake? || p.AdvanceAcquire?) && p.s == s)
  }

  ghost predicate SomeoneAdvances(m: Machine, s: Scope) {
    exists x :: x in m.threads && Advancing(m.b, m.threads[x], s)
  }

  /** Nobody waits, or somebody holds the lock, or somebody is about to look. */
  ghost predicate Covered(m: Machine, s: Scope) {
    Waiting(m.b, s) == [] || s in m.b.lock || SomeoneAdvances(m, s)
  }

  /** The thread frees its own lock and will look at no list. */
  predicate FreesBlindly(b: Board, p: Point) {
    (p.DispatchCheck? && p.t in b.cancelled) || p.ChatRelease?
  }

  /** The windows: joining the list when the lock has been freed and the list looked
      at since the failed acquire; and freeing the lock without a look at the list,
      as the cancelled branch of `_dispatch_task_now` does and the end of a chat. */
  ghost predicate Strands(m: Machine, a: Action, s: Scope) {
    && a.Step? && a.x in m.threads && !SomeoneAdvances(m, s)
    && var p := m.threads[a.x];
    || (Enqueues(p) && ScopeOf(m.b, p.t) == s && s !in m.b.lock)
    || (FreesBlindly(m.b, p) && s in m.b.lock && m.b.lock[s] == p.t && ScopeOf(m.b, p.t) == s && Waiting(m.b, s) != [])
  }

  lemma AdvanceGoesOn(b: Board, p: Point, s: Scope)
    requires KnownPoint(b, p)
    requires p.AdvanceTake? && p.t in b.pending ==> b.pending[p.t] == p.s
    requires Advancing(b, p, s)
    ensures var n, q := StepFrom(b, p).0, Goes(b, p);
      Waiting(n, s) == [] || s in n.lock || (q != Idle && Advancing(n, q, s))
  {
  }

  lemma ListAfter(b: Board, p: Point, s: Scope)
    requires KnownPoint(b, p) && !Advancing(b, p, s)
    ensures var n := StepFrom(b, p).0;
      && (Enqueues(p) && ScopeOf(b, p.t) == s ==> Waiting(n, s) != [])
      && (!(Enqueues(p) && ScopeOf(b, p.t) == s) && !p.StopRemove? ==> Waiting(n, s) == Waiting(b, s))
      && (Waiting(b, s) == [] && !(Enqueues(p) && ScopeOf(b, p.t) == s) ==> Waiting(n, s) == [])
  {
  }

  lemma LockFreedAfter(b: Board, p: Point, s: Scope)
    requires KnownPoint(b, p)
    requires InFlight(p) && s in b.lock && b.lock[s] == p.t ==> ScopeOf(b, p.t) == s
    ensures var n, q := StepFrom(b, p).0, Goes(b, p);
      && (Enqueues(p) ==> n.lock == b.lock)
      && (s in b.lock && s !in n.lock ==>
            (p.RunRelease? && q != Idle && Advancing(n, q, s)) || (FreesBlindly(b, p) && b.lock[s] == p.t))
      && (FreesBlindly(b, p) && s in b.lock && b.lock[s] == p.t && ScopeOf(b, p.t) == s ==> s !in n.lock)
      && (Enqueues(p) || FreesBlindly(b, p) ==> q == Idle)
  {
  }

  lemma AdvancersStay(m: Machine, x: ThreadId, y: ThreadId, z: ThreadId, s: Scope)
    requires x in m.threads && (y == x || y !in m.threads) && z in m.threads && z != x
    ensures var n := Move(m, x, y, StepFrom(m.b, m.threads[x]).0, Goes(m.b, m.threads[x]));
      z in n.threads && n.threads[z] == m.threads[z]
        && (Advancing(n.b, n.threads[z], s) <==> Advancing(m.b, m.threads[z], s))
  {
    TasksSame(m.b, m.threads[x]);
    hide StepFrom, Goes;
  }

  lemma TasksSame(b: Board, p: Point)
    ensures StepFrom(b, p).0.tasks == b.tasks
  {
  }

  lemma HolderScope(m: Machine, x: ThreadId, s: Scope)
    requires Inv(m) && x in m.threads && InFlight(m.threads[x]) && s in m.b.lock && m.b.lock[s] == m.threads[x].t
    ensures ScopeOf(m.b, m.threads[x].t) == s
  {
    var z :| Holder(m, s, z);
  }

  /** When an advancing thread steps, its scope stays covered. */
  lemma AdvancerCovers(m: Machine, x: ThreadId, y: ThreadId, s: Scope)
    requires Inv(m) && x in m.threads && (y == x || y !in m.threads) && Advancing(m.b, m.threads[x], s)
    ensures Covered(Move(m, x, y, StepFrom(m.b, m.threads[x]).0, Goes(m.b, m.threads[x])), s)
  {
    var p := m.threads[x];
    var n := Move(m, x, y, StepFrom(m.b, p).0, Goes(m.b, p));
    assert KnownPoint(m.b, p);
    AdvanceGoesOn(m.b, p, s);
    hide StepFrom, Goes, Inv, Advancing;
    if Goes(m.b, p) != Idle && Advancing(n.b, Goes(m.b, p), s) {
      assert n.threads[y] == Goes(m.b, p);
    }
  }

  /** A step that strands nobody keeps the scope covered, and one that strands
      uncovers it. */
  lemma CoveredIffNotStranded(m: Machine, x: ThreadId, spawn: ThreadId, y: ThreadId, s: Scope)
    requires Inv(m) && Covered(m, s) && x in m.threads && (y == x || y !in m.threads)
    ensures Covered(Move(m, x, y, StepFrom(m.b, m.threads[x]).0, Goes(m.b, m.threads[x])), s) <==>
      !Strands(m, Step(x, spawn), s)
  {
    var p := m.threads[x];
    var n := Move(m, x, y, StepFrom(m.b, p).0, Goes(m.b, p));
    assert KnownPoint(m.b, p);
    if Advancing(m.b, p, s) {
      AdvancerCovers(m, x, y, s);
      assert SomeoneAdvances(m, s);
    } else if SomeoneAdvances(m, s) {
      var z :| z in m.threads && Advancing(m.b, m.threads[z], s);
      AdvancersStay(m, x, y, z, s);
      assert SomeoneAdvances(n, s);
    } else {
      ListAfter(m.b, p, s);
      if InFlight(p) && s in m.b.lock && m.b.lock[s] == p.t { HolderScope(m, x, s); }
      LockFreedAfter(m.b, p, s);
      hide StepFrom, Goes, Inv;
      if Strands(m, Step(x, spawn), s) {
        forall z | z in n.threads ensures !Advancing(n.b, n.threads[z], s) {
          AdvancersStay(m, x, y, z, s);
        }
      } else if s in m.b.lock && s !in n.b.lock && Goes(m.b, p) != Idle && Advancing(n.b, Goes(m.b, p), s) {
        assert n.threads[y] == Goes(m.b, p);
      }
    }
  }

  lemma ArrivalsCover(m: Machine, a: Action, s: Scope)
    requires Known(m) && Covered(m, s) && (!a.Step? || a.x !in m.threads)
    ensures Covered(Next(m, a), s)
  {
    var n := Next(m, a);
    assert Waiting(n.b, s) == Waiting(m.b, s) && n.b.lock == m.b.lock;
    if SomeoneAdvances(m, s) {
      var z :| z in m.threads && Advancing(m.b, m.threads[z], s);
      assert KnownPoint(m.b, m.threads[z]);
      assert z in n.threads && Advancing(n.b, n.threads[z], s);
    }
  }

  /** A run thread that cannot begin leaves everything as it is. */
  lemma NoSpawn(m: Machine, a: Action, s: Scope)
    requires a.Step? && a.x in m.threads && m.threads[a.x].DispatchStart? && a.spawn in m.threads
    ensures Next(m, a) == m && !Strands(m, a, s)
  {
  }

  /** Progress under any interleaving, with its exact limits: in a reachable state
      that is covered, an action leaves a scope with waiting tasks, a free lock
      and nobody about to look exactly when it goes through one of the windows. */
  lemma StrandedOnlyByWindows(actions: seq<Action>, a: Action, s: Scope)
    requires Covered(After(actions), s)
    ensures Covered(Next(After(actions), a), s) <==> !Strands(After(actions), a, s)
  {
    AlwaysInv(actions);
    var m := After(actions);
    if a.Step? && a.x in m.threads {
      if m.threads[a.x].DispatchStart? && a.spawn in m.threads {
        NoSpawn(m, a, s);
      } else {
        var y := StepMoves(m, a.x, a.spawn);
        CoveredIffNotStranded(m, a.x, a.spawn, y, s);
        assert Next(m, a) == Move(m, a.x, y, StepFrom(m.b, m.threads[a.x]).0, Goes(m.b, m.threads[a.x]));
      }
    } else {
      ArrivalsCover(m, a, s);
    }
  }

  /** The action with number `k` strands the scope, and nobody looks at it again. */
  ghost predicate StrandedSince(actions: seq<Action>, k: nat, s: Scope) {
    && k < |actions| && Strands(After(actions[..k]), actions[k], s)
    && forall j :: k < j <= |actions| ==> !Covered(After(actions[..j]), s)
  }

  lemma {:induction false} UncoveredSince(actions: seq<Action>, s: Scope) returns (k: nat)
    requires !Covered(After(actions), s)
    ensures StrandedSince(actions, k, s)
  {
    hide Strands, Next, Covered;
    if actions == [] {
      StartCovered(s);
      assert false;
    } else {
      var last := |actions| - 1;
      var before := actions[..last];
      assert actions[..|actions|] == actions;
      if Covered(After(before), s) {
        StrandedOnlyByWindows(before, actions[last], s);
        k := last;
      } else {
        k := UncoveredSince(before, s);
        assert forall j :: 0 <= j <= last ==> before[..j] == actions[..j];
      }
    }
  }

  lemma StartCovered(s: Scope)
    ensures Covered(START, s)
  {
  }

  /** Over whole runs: at their end somebody waits for a free scope at which nobody
      is about to look exactly when some action went through a window of it and it
      has been so ever since. */
  lemma LeftBehindIff(actions: seq<Action>, s: Scope)
    ensures !Covered(After(actions), s) <==> exists k: nat :: StrandedSince(actions, k, s)
  {
    if !Covered(After(actions), s) {
      var k := UncoveredSince(actions, s);
    }
    assert actions[..|actions|] == actions;
    hide Covered, Strands, After;
  }

  /** Once all threads have ended no scope is held, and a task still waits exactly
      when it was left behind so. A run without windows leaves nobody. */
  lemma NobodyWaitsAtTheEnd(actions: seq<Action>, s: Scope)
    requires After(actions).threads == map[]
    ensures s !in After(actions).b.lock
    ensures Waiting(After(actions).b, s) != [] <==> exists k: nat :: StrandedSince(actions, k, s)
    ensures (forall k :: 0 <= k < |actions| ==> !Strands(After(actions[..k]), actions[k], s)) ==>
      Waiting(After(actions).b, s) == []
  {
    AlwaysInv(actions);
    LeftBehindIff(actions, s);
    var m := After(actions);
    assert forall x :: !Holder(m, s, x);
    hide Inv, Strands, After, Waiting;
    assert !SomeoneAdvances(m, s);
  }
}
