/** Handlers as uninterrupted threads, and three runs of threads that leave a task
    behind, one for each window. */
module TaskTraces {
  import opened TaskQueue
  import opened TaskRuns
  import TaskProgress

  /** The steps a thread at `p` makes when nobody comes between them. */
  function AloneSteps(b: Board, p: Point): (n: nat)
    ensures n > 0
    decreases ListLength(b, p), Rank(p)
  {
    var (next, q) := StepFrom(b, p);
    if q == Idle then 1 else 1 + AloneSteps(next, q)
  }

  function Alone(b: Board, p: Point, x: ThreadId, spawn: ThreadId): seq<Action> {
    seq(AloneSteps(b, p), i => Step(x, spawn))
  }

  /** The run thread that a handler has started. */
  function Spawned(before: Board, after: Board, spawn: ThreadId): map<ThreadId, Point> {
    if |after.started| > |before.started| then map[spawn := RunBody(after.started[|before.started|])] else map[]
  }

  lemma AfterStep(before: seq<Action>, a: Action)
    ensures After(before + [a]) == Next(After(before), a)
  {
    hide Next;
    assert (before + [a])[..|before|] == before;
  }

  lemma StartsLast(b: Board, p: Point)
    ensures StepFrom(b, p).0.started == if p.DispatchStart? then b.started + [p.t] else b.started
    ensures p.DispatchStart? ==> StepFrom(b, p).1 == Idle
  {
  }

  lemma OneAloneStep(m: Machine, x: ThreadId, spawn: ThreadId, p: Point)
    requires x in m.threads && m.threads[x] == p && p != Idle && spawn !in m.threads
    ensures var (b, q) := StepFrom(m.b, p);
      Next(m, Step(x, spawn)) ==
        if q == Idle then Machine(b, (m.threads - {x}) + Spawned(m.b, b, spawn)) else Machine(b, m.threads[x := q])
  {
    StartsLast(m.b, p);
    hide StepFrom;
  }

  /** A thread that nobody interrupts does what its handler is said to do: the
      handlers of the classes and of the progress results are such threads. */
  lemma {:induction false} Uninterrupted(before: seq<Action>, x: ThreadId, spawn: ThreadId, p: Point)
    requires x in After(before).threads && After(before).threads[x] == p && p != Idle && spawn !in After(before).threads
    ensures var m := After(before);
      var b := Settle(m.b, p);
      After(before + Alone(m.b, p, x, spawn)) == Machine(b, (m.threads - {x}) + Spawned(m.b, b, spawn))
    decreases ListLength(After(before).b, p), Rank(p)
  {
    var m := After(before);
    var (b, q) := StepFrom(m.b, p);
    var n := Next(m, Step(x, spawn));
    AfterStep(before, Step(x, spawn));
    OneAloneStep(m, x, spawn, p);
    OneStep(m.b, p);
    StartsLast(m.b, p);
    if q == Idle {
      assert Alone(m.b, p, x, spawn) == [Step(x, spawn)];
    } else {
      Shorter(m.b, p);
      Uninterrupted(before + [Step(x, spawn)], x, spawn, q);
      hide StepFrom, Settle, After, Next;
      assert before + Alone(m.b, p, x, spawn) == before + [Step(x, spawn)] + Alone(b, q, x, spawn);
      assert n.threads - {x} == m.threads - {x};
    }
  }

  lemma Shorter(b: Board, p: Point)
    requires StepFrom(b, p).1 != Idle
    ensures var (n, q) := StepFrom(b, p);
      ListLength(n, q) < ListLength(b, p) || (ListLength(n, q) == ListLength(b, p) && Rank(q) < Rank(p))
  {
  }

  // ------------------------------------------------------------- stranded runs

  const SHARED := Task(LegacyShared, true)

  /** `before`, and then the creation of task `t` by a handler nobody interrupts. */
  function Born(before: seq<Action>, t: TaskId, spawn: ThreadId): seq<Action> {
    var arrived := before + [Create(0, t, SHARED)];
    arrived + Alone(After(arrived).b, CreateAcquire(t), 0, spawn)
  }

  lemma AfterBorn(before: seq<Action>, t: TaskId, spawn: ThreadId, m: Machine)
    requires m == After(before) && 0 !in m.threads && spawn !in m.threads && spawn != 0 && t !in m.b.tasks
      && t !in m.b.cancelled
    ensures var b := m.b.(tasks := m.b.tasks[t := SHARED]);
      After(Born(before, t, spawn)) ==
        if LegacyShared in b.lock then
          Machine(Enqueue(b.(pending := b.pending[t := LegacyShared]), t, LegacyShared), m.threads)
        else Machine(b.(lock := b.lock[LegacyShared := t], started := b.started + [t]), m.threads[spawn := RunBody(t)])
  {
    hide After, Settle, StepFrom, Alone;
    var arrived := before + [Create(0, t, SHARED)];
    AfterStep(before, Create(0, t, SHARED));
    var b := m.b.(tasks := m.b.tasks[t := SHARED]);
    assert After(arrived) == Machine(b, m.threads[0 := CreateAcquire(t)]);
    Uninterrupted(arrived, 0, spawn, CreateAcquire(t));
    TaskProgress.CreateSettles(b, t);
    OneMoreThread(m.threads, CreateAcquire(t), spawn, RunBody(t));
  }

  lemma OneMoreThread(threads: map<ThreadId, Point>, p: Point, spawn: ThreadId, q: Point)
    requires 0 !in threads
    ensures threads[0 := p] - {0} == threads && threads + map[] == threads
      && threads + map[spawn := q] == threads[spawn := q]
  {
  }

  /** The only thread, thread 9, makes its next step. */
  lemma StepOn(before: seq<Action>, b: Board, p: Point, n: Board, q: Point)
    requires After(before) == Machine(b, map[9 := p]) && StepFrom(b, p) == (n, q) && p != Idle && !p.DispatchStart?
    ensures After(before + [Step(9, 8)]) == Machine(n, if q == Idle then map[] else map[9 := q])
  {
    hide After, StepFrom, Next;
    AfterStep(before, Step(9, 8));
    OneAloneStep(Machine(b, map[9 := p]), 9, 8, p);
    StartsLast(b, p);
    var none: map<ThreadId, Point> := map[];
    assert map[9 := p] - {9} == none && none + none == none && map[9 := p][9 := q] == map[9 := q];
  }

  const ONE: map<TaskId, Task> := map[1 := SHARED]
  const THREE: map<TaskId, Task> := map[1 := SHARED, 2 := SHARED, 3 := SHARED]

  function RunBegun(): seq<Action> {
    Born([], 1, 9)
  }

  lemma AfterRunBegun()
    ensures After(RunBegun()) ==
      Machine(Board(ONE, map[LegacyShared := 1], map[], map[], {}, [1]), map[9 := RunBody(1)])
  {
    AfterBorn([], 1, 9, START);
  }

  const TWO_WAITING :=
    Board(THREE, map[LegacyShared := 1], map[LegacyShared := [2, 3]],
          map[2 := LegacyShared, 3 := LegacyShared], {}, [1])

  /** Task 1 runs; 2 and 3 wait. */
  function TwoWait(): seq<Action> {
    Born(Born(RunBegun(), 2, 8), 3, 8)
  }

  lemma AfterTwoWait()
    ensures After(TwoWait()) ==
      Machine(TWO_WAITING, map[9 := RunBody(1)])
  {
    hide After, Born, RunBegun;
    AfterRunBegun();
    var none: seq<TaskId> := [];
    assert none + [2] == [2] && [2] + [3] == [2, 3];
    AfterBorn(RunBegun(), 2, 8, After(RunBegun()));
    AfterBorn(Born(RunBegun(), 2, 8), 3, 8, After(Born(RunBegun(), 2, 8)));
    var m := After(Born(Born(RunBegun(), 2, 8), 3, 8));
    assert m.b.tasks == THREE && m.b.queue == map[LegacyShared := [2, 3]]
      && m.b.pending == map[2 := LegacyShared, 3 := LegacyShared];
    assert m == Machine(TWO_WAITING, map[9 := RunBody(1)]);
    assert TwoWait() == Born(Born(RunBegun(), 2, 8), 3, 8);
  }

  /** The run of task 1 ends and hands the scope to task 2, up to its check. */
  function HandedOver(): seq<Action> {
    TwoWait() + [Step(9, 8)] + [Step(9, 8)] + [Step(9, 8)] + [Step(9, 8)] + [Step(9, 8)] + [Step(9, 8)] + [Step(9, 8)]
  }

  lemma EndingSteps(b: Board)
    requires b == TWO_WAITING
    ensures var free := b.(lock := map[]);
      var popped := free.(queue := map[LegacyShared := [3]]);
      && StepFrom(b, RunBody(1)) == (b, RunRelease(1))
      && StepFrom(b, RunRelease(1)) == (free, RunForget(1))
      && StepFrom(free, RunForget(1)) == (free, AdvancePop(LegacyShared))
      && StepFrom(free, AdvancePop(LegacyShared)) == (popped, AdvanceCancelled(2, LegacyShared))
      && StepFrom(popped, AdvanceCancelled(2, LegacyShared)) == (popped, AdvanceTake(2, LegacyShared))
  {
    assert map[LegacyShared := 1] - {LegacyShared} == map[];
    assert b.cancelled - {1} == b.cancelled;
    assert [2, 3][1..] == [3];
    assert map[LegacyShared := [2, 3]][LegacyShared := [3]] == map[LegacyShared := [3]];
  }

  lemma TakingSteps(popped: Board)
    requires popped == Board(THREE, map[], map[LegacyShared := [3]], map[2 := LegacyShared, 3 := LegacyShared], {}, [1])
    ensures var taken := popped.(pending := map[3 := LegacyShared]);
      && StepFrom(popped, AdvanceTake(2, LegacyShared)) == (taken, AdvanceAcquire(2, LegacyShared))
      && StepFrom(taken, AdvanceAcquire(2, LegacyShared)) == (taken.(lock := map[LegacyShared := 2]), DispatchCheck(2))
  {
    assert map[2 := LegacyShared, 3 := LegacyShared] - {2} == map[3 := LegacyShared];
  }

  lemma AfterHandedOver()
    ensures After(HandedOver()) ==
      Machine(Board(THREE, map[LegacyShared := 2], map[LegacyShared := [3]], map[3 := LegacyShared], {}, [1]),
        map[9 := DispatchCheck(2)])
  {
    hide After, StepFrom, TwoWait;
    AfterTwoWait();
    var b := After(TwoWait()).b;
    var free := b.(lock := map[]);
    var popped := free.(queue := map[LegacyShared := [3]]);
    var taken := popped.(pending := map[3 := LegacyShared]);
    EndingSteps(b);
    TakingSteps(popped);
    var step := [Step(9, 8)];
    StepOn(TwoWait(), b, RunBody(1), b, RunRelease(1));
    StepOn(TwoWait() + step, b, RunRelease(1), free, RunForget(1));
    StepOn(TwoWait() + step + step, free, RunForget(1), free, AdvancePop(LegacyShared));
    StepOn(TwoWait() + step + step + step, free, AdvancePop(LegacyShared), popped, AdvanceCancelled(2, LegacyShared));
    StepOn(TwoWait() + step + step + step + step,
           popped, AdvanceCancelled(2, LegacyShared), popped, AdvanceTake(2, LegacyShared));
    StepOn(TwoWait() + step + step + step + step + step,
           popped, AdvanceTake(2, LegacyShared), taken, AdvanceAcquire(2, LegacyShared));
    StepOn(TwoWait() + step + step + step + step + step + step, taken, AdvanceAcquire(2, LegacyShared),
           taken.(lock := map[LegacyShared := 2]), DispatchCheck(2));
  }

  /** A stop of task 2, which its row still calls queued, comes in between. */
  function Stopped(): seq<Action> {
    var arrived := HandedOver() + [Stop(0, 2, true)];
    arrived + Alone(After(arrived).b, StopQueued(2), 0, 8)
  }

  /** The first window: the check of task 2 then frees the scope, and task 3 waits
      with nobody left to look. */
  lemma StoppedBeforeCheckStrands()
    ensures var m := After(Stopped() + [Step(9, 8)]);
      m.threads == map[] && m.b.lock == map[] && Waiting(m.b, LegacyShared) == [3] && m.b.started == [1]
  {
    hide After, HandedOver, Settle, StepFrom;
    AfterHandedOver();
    var b := Board(THREE, map[LegacyShared := 2], map[LegacyShared := [3]], map[3 := LegacyShared], {}, [1]);
    var stopped := b.(cancelled := {2});
    AfterStep(HandedOver(), Stop(0, 2, true));
    Uninterrupted(HandedOver() + [Stop(0, 2, true)], 0, 8, StopQueued(2));
    StopQueuedTurn(b, 2);
    NotListed();
    assert map[9 := DispatchCheck(2)][0 := StopQueued(2)] - {0} == map[9 := DispatchCheck(2)];
    var none: map<ThreadId, Point> := map[];
    assert map[9 := DispatchCheck(2)] + none == map[9 := DispatchCheck(2)];
    assert b.pending - {2} == b.pending && map[LegacyShared := [3]][LegacyShared := [3]] == map[LegacyShared := [3]];
    assert After(Stopped()) == Machine(stopped, map[9 := DispatchCheck(2)]);
    CheckOfStopped(stopped);
    StepOn(Stopped(), stopped, DispatchCheck(2), stopped.(cancelled := {}, lock := map[]), Idle);
  }

  lemma NotListed()
    ensures Without([3], 2) == [3]
  {
    assert Without([3][1..], 2) == [];
  }

  lemma CheckOfStopped(b: Board)
    requires b == Board(THREE, map[LegacyShared := 2], map[LegacyShared := [3]], map[3 := LegacyShared], {2}, [1])
    ensures StepFrom(b, DispatchCheck(2)) == (b.(cancelled := {}, lock := map[]), Idle)
  {
    assert map[LegacyShared := 2] - {LegacyShared} == map[] && b.cancelled - {2} == {};
  }

  /** Task 1 runs; task 2 is created and fails to acquire. */
  function Refused(): seq<Action> {
    RunBegun() + [Create(0, 2, SHARED)] + [Step(0, 8)]
  }

  const TWO: map<TaskId, Task> := map[1 := SHARED, 2 := SHARED]

  lemma AfterRefused()
    ensures After(Refused()) ==
      Machine(Board(TWO, map[LegacyShared := 1], map[], map[], {}, [1]), map[9 := RunBody(1), 0 := CreatePending(2)])
  {
    hide After, RunBegun;
    AfterRunBegun();
    AfterStep(RunBegun(), Create(0, 2, SHARED));
    AfterStep(RunBegun() + [Create(0, 2, SHARED)], Step(0, 8));
    var m := Machine(Board(TWO, map[LegacyShared := 1], map[], map[], {}, [1]),
      map[9 := RunBody(1), 0 := CreateAcquire(2)]);
    assert ONE[2 := SHARED] == TWO;
    OneAloneStep(m, 0, 8, CreateAcquire(2));
    assert m.threads[0 := CreatePending(2)] == map[9 := RunBody(1), 0 := CreatePending(2)];
  }

  /** Then task 1 ends and finds the list empty, */
  function Missed(): seq<Action> {
    Refused() + Alone(After(Refused()).b, RunBody(1), 9, 8)
  }

  lemma AfterMissed()
    ensures After(Missed()) == Machine(Board(TWO, map[], map[], map[], {}, [1]), map[0 := CreatePending(2)])
  {
    hide After, Settle, StepFrom, Refused, Alone;
    AfterRefused();
    var b := Board(TWO, map[LegacyShared := 1], map[], map[], {}, [1]);
    Uninterrupted(Refused(), 9, 8, RunBody(1));
    RunSettles(b);
    var threads := map[9 := RunBody(1), 0 := CreatePending(2)];
    var none: map<ThreadId, Point> := map[];
    assert threads - {9} == map[0 := CreatePending(2)]
      && map[0 := CreatePending(2)] + none == map[0 := CreatePending(2)];
  }

  lemma RunSettles(b: Board)
    requires b == Board(TWO, map[LegacyShared := 1], map[], map[], {}, [1])
    ensures Settle(b, RunBody(1)) == b.(lock := map[])
  {
    hide Settle;
    OneStep(b, RunBody(1));
    TaskProgress.FinishSettles(b, 1);
    assert map[LegacyShared := 1] - {LegacyShared} == map[] && b.cancelled - {1} == b.cancelled;
    AdvanceTurn(b.(lock := map[]), LegacyShared);
  }

  /** The second window: only then does task 2 join the list. */
  lemma QueuedTooLateStrands()
    ensures var m := After(Missed() + Alone(After(Missed()).b, CreatePending(2), 0, 8));
      m.threads == map[] && m.b.lock == map[] && Waiting(m.b, LegacyShared) == [2] && m.b.started == [1]
  {
    hide After, Settle, Missed, Alone;
    AfterMissed();
    var b := Board(TWO, map[], map[], map[], {}, [1]);
    Uninterrupted(Missed(), 0, 8, CreatePending(2));
    OneStep(b, CreatePending(2));
    OneStep(b.(pending := map[2 := LegacyShared]), CreateEnqueue(2));
    var none: map<ThreadId, Point> := map[];
    assert map[0 := CreatePending(2)] - {0} == none && none + none == none;
  }

  /** A chat holds the shared scope. */
  function Chatted(): seq<Action> {
    [Chat(9, 1, LegacyShared)] + [Step(9, 8)]
  }

  lemma AfterChatted()
    ensures After(Chatted()) == Machine(Board(ONE, map[LegacyShared := 1], map[], map[], {}, []), map[9 := ChatBody(1)])
  {
    hide After;
    AfterStart();
    AfterStep([], Chat(9, 1, LegacyShared));
    assert [] + [Chat(9, 1, LegacyShared)] == [Chat(9, 1, LegacyShared)];
    StepOn([Chat(9, 1, LegacyShared)], EMPTY_BOARD.(tasks := ONE), ChatAcquire(1),
           Board(ONE, map[LegacyShared := 1], map[], map[], {}, []), ChatBody(1));
  }

  lemma AfterStart()
    ensures After([]) == START
  {
  }

  /** The third way: task 2 waits for the chat, which frees the scope and is gone. */
  lemma ChatEndStrands()
    ensures var m := After(Born(Chatted(), 2, 8) + [Step(9, 8)] + [Step(9, 8)]);
      m.threads == map[] && m.b.lock == map[] && Waiting(m.b, LegacyShared) == [2] && m.b.started == []
  {
    hide After, Born, Chatted;
    AfterChatted();
    AfterBorn(Chatted(), 2, 8, After(Chatted()));
    var b := After(Born(Chatted(), 2, 8)).b;
    StepOn(Born(Chatted(), 2, 8), b, ChatBody(1), b, ChatRelease(1));
    assert map[LegacyShared := 1] - {LegacyShared} == map[];
    StepOn(Born(Chatted(), 2, 8) + [Step(9, 8)], b, ChatRelease(1), b.(lock := map[]), Idle);
  }
}
