/** The order of the wait list when handlers do not overlap: exactly which handler
    loses it. */
module TaskOrder {
  import opened TaskQueue
  import opened TaskProgress
  import TaskRuns

  /** Not cancelled, and with its arguments kept. */
  predicate Live(b: Board, n: TaskId) {
    n !in b.cancelled && n in b.pending
  }

  /** The list from its first live task on. */
  function FromLive(b: Board, q: seq<TaskId>): seq<TaskId> {
    if q == [] || Live(b, q[0]) then q else FromLive(b, q[1..])
  }

  lemma {:induction false} FromLiveIsSuffix(b: Board, q: seq<TaskId>) returns (k: nat)
    ensures k <= |q| && FromLive(b, q) == q[k..]
  {
    if q == [] || Live(b, q[0]) {
      k := 0;
    } else {
      var j := FromLiveIsSuffix(b, q[1..]);
      k := j + 1;
    }
  }

  lemma {:induction false} SameLive(b: Board, n: Board, q: seq<TaskId>)
    requires forall x :: x in q ==> (Live(b, x) <==> Live(n, x))
    ensures FromLive(b, q) == FromLive(n, q)
  {
    if q != [] {
      assert q[0] in q && forall x :: x in q[1..] ==> x in q;
      SameLive(b, n, q[1..]);
    }
  }

  /** The list that advancing `s` leaves: dead tasks at the front are dropped, and the
      first live one goes, to a run if the scope is free and to the end if not. */
  function ListAfterAdvance(b: Board, s: Scope): seq<TaskId> {
    var live := FromLive(b, Waiting(b, s));
    if live == [] then [] else if s in b.lock then live[1..] + [live[0]] else live[1..]
  }

  lemma TakeList(b: Board, n: TaskId, s: Scope)
    requires Tidy(b) && Live(b, n) && ScopeOf(b, n) == s
    ensures Waiting(Settle(b, AdvanceTake(n, s)), s) == if s in b.lock then Waiting(b, s) + [n] else Waiting(b, s)
  {
    hide Settle, TaskRuns.Distinct;
    TakeTurn(b, n, s);
    if s !in b.lock {
      DispatchTurn(b.(pending := b.pending - {n}, lock := b.lock[s := n]), n);
    }
  }

  lemma PoppedElsewhere(b: Board, s: Scope)
    requires Tidy(b) && Waiting(b, s) != []
    ensures var n, rest := b.queue[s][0], b.queue[s][1..];
      var drop := b.(queue := b.queue[s := rest], cancelled := b.cancelled - {n}, pending := b.pending - {n});
      FromLive(drop, rest) == FromLive(b, rest) && FromLive(b.(queue := b.queue[s := rest]), rest) == FromLive(b, rest)
  {
    var n, rest := b.queue[s][0], b.queue[s][1..];
    TaskRuns.PopDistinct(Waiting(b, s));
    hide TaskRuns.Distinct;
    SameLive(b.(queue := b.queue[s := rest], cancelled := b.cancelled - {n}, pending := b.pending - {n}), b, rest);
    SameLive(b.(queue := b.queue[s := rest]), b, rest);
  }

  lemma {:induction false} AdvanceList(b: Board, s: Scope)
    requires Tidy(b)
    ensures Waiting(Settle(b, AdvancePop(s)), s) == ListAfterAdvance(b, s)
    decreases |Waiting(b, s)|
  {
    hide Settle, Tidy;
    AdvanceTurn(b, s);
    if Waiting(b, s) != [] {
      var n, rest := b.queue[s][0], b.(queue := b.queue[s := b.queue[s][1..]]);
      PopTidy(b, s);
      PoppedElsewhere(b, s);
      if n in b.cancelled {
        AdvanceList(rest.(cancelled := b.cancelled - {n}, pending := b.pending - {n}), s);
      } else if n in b.pending {
        TakeList(rest, n, s);
      } else {
        TakeTurn(rest, n, s);
        AdvanceList(rest, s);
      }
    }
  }

  // -------------------------------------------------------------------- order

  ghost predicate Before(q: seq<TaskId>, x: TaskId, y: TaskId) {
    exists i, j :: 0 <= i < j < |q| && q[i] == x && q[j] == y
  }

  /** Tasks that waited and still wait do so in their old order. */
  ghost predicate KeepsOrder(was: seq<TaskId>, now: seq<TaskId>) {
    forall x, y :: x in was && y in was && Before(now, x, y) ==> Before(was, x, y)
  }

  /** A run that needs no lock ends on a scope that another one holds, over two or
      more waiting tasks of which the first to be looked at is live. */
  ghost predicate Rotates(q: Quiet, h: Handler, s: Scope) {
    && h.FinishRun? && h.t in q.running && ScopeOf(q.b, h.t) == s && !NeedsLock(q.b, h.t) && s in q.b.lock
    && |FromLive(Ended(q.b, h.t), Waiting(q.b, s))| >= 2
  }

  /** The board when the end of a run begins to advance. */
  function Ended(b: Board, t: TaskId): Board {
    var freed := Release(b, t, ScopeOf(b, t));
    freed.(cancelled := freed.cancelled - {t})
  }

  lemma SuffixKeepsOrder(q: seq<TaskId>, k: nat)
    requires k <= |q|
    ensures KeepsOrder(q, q[k..])
  {
    forall x, y | Before(q[k..], x, y) ensures Before(q, x, y) {
      var i, j :| 0 <= i < j < |q| - k && q[k..][i] == x && q[k..][j] == y;
      assert q[k + i] == x && q[k + j] == y;
    }
  }

  lemma DistinctAt(q: seq<TaskId>, i: nat, j: nat)
    requires TaskRuns.Distinct(q) && i < j < |q|
    ensures q[i] != q[j]
  {
    assert q == q[..j] + [q[j]] + q[j + 1..];
    assert multiset(q)[q[j]] == multiset(q[..j])[q[j]] + 1 + multiset(q[j + 1..])[q[j]];
    assert q[j] in q;
    assert q[..j][i] == q[i];
  }

  lemma RotationLosesOrder(q: seq<TaskId>, k: nat)
    requires TaskRuns.Distinct(q) && k + 2 <= |q|
    ensures !KeepsOrder(q, q[k..][1..] + [q[k..][0]])
  {
    var x, y, now := q[k + 1], q[k], q[k..][1..] + [q[k..][0]];
    assert now[0] == x && now[|now| - 1] == y && 0 < |now| - 1;
    assert Before(now, x, y) && x in q && y in q;
    forall i, j | 0 <= i < j < |q| ensures q[i] != x || q[j] != y {
      if i != k + 1 && q[i] == x { DistinctAt(q, if i < k + 1 then i else k + 1, if i < k + 1 then k + 1 else i); }
      if j != k && q[j] == y { DistinctAt(q, if j < k then j else k, if j < k then k else j); }
    }
  }

  lemma AppendKeepsOrder(q: seq<TaskId>, t: TaskId)
    requires t !in q
    ensures KeepsOrder(q, q + [t])
  {
    forall x, y | x in q && y in q && Before(q + [t], x, y) ensures Before(q, x, y) {
      var i, j :| 0 <= i < j < |q + [t]| && (q + [t])[i] == x && (q + [t])[j] == y;
      assert q[i] == x && q[j] == y;
    }
  }

  lemma {:induction false} WithoutBefore(q: seq<TaskId>, t: TaskId, x: TaskId, y: TaskId)
    requires Before(Without(q, t), x, y)
    ensures Before(q, x, y)
  {
    var w := Without(q, t);
    var i, j :| 0 <= i < j < |w| && w[i] == x && w[j] == y;
    var rest := Without(q[1..], t);
    if q[0] == t || i > 0 {
      var d := if q[0] == t then 0 else 1;
      assert rest[i - d] == x && rest[j - d] == y;
      assert Before(rest, x, y);
      WithoutBefore(q[1..], t, x, y);
      var a, b :| 0 <= a < b < |q| - 1 && q[1..][a] == x && q[1..][b] == y;
      assert q[a + 1] == x && q[b + 1] == y;
    } else {
      WithoutRemoves(q[1..], t);
      assert rest[j - 1] == y && y in rest && y in q[1..];
      var b :| 0 <= b < |q| - 1 && q[1..][b] == y;
      assert q[0] == x && q[b + 1] == y;
    }
  }

  lemma EndOrder(b: Board, s: Scope)
    requires Tidy(b)
    ensures KeepsOrder(Waiting(b, s), ListAfterAdvance(b, s)) <==> !(s in b.lock && |FromLive(b, Waiting(b, s))| >= 2)
  {
    var q := Waiting(b, s);
    var k := FromLiveIsSuffix(b, q);
    var live := FromLive(b, q);
    hide FromLive, KeepsOrder, TaskRuns.Distinct, TaskRuns.InQueue;
    assert TaskRuns.Distinct(q);
    if live == [] {
      SuffixKeepsOrder(q, |q|);
      assert q[|q|..] == [];
    } else if s !in b.lock {
      SuffixKeepsOrder(q, k + 1);
      assert live[1..] == q[k + 1..];
    } else if |live| == 1 {
      SuffixKeepsOrder(q, k);
      assert live[1..] + [live[0]] == q[k..];
    } else {
      RotationLosesOrder(q, k);
    }
  }

  lemma FinishOrder(q: Quiet, t: TaskId, s: Scope)
    requires QuietInv(q) && t in q.running
    ensures ScopeOf(q.b, t) == s ==> Waiting(Handle(q, FinishRun(t)).b, s) == ListAfterAdvance(Ended(q.b, t), s)
    ensures KeepsOrder(Waiting(q.b, s), Waiting(Handle(q, FinishRun(t)).b, s)) <==> !Rotates(q, FinishRun(t), s)
  {
    var b := Ended(q.b, t);
    FreedTidy(q, t);
    FinishSettles(q.b, t);
    AdvanceList(b, ScopeOf(q.b, t));
    AdvanceAdvances(b, ScopeOf(q.b, t));
    if s == ScopeOf(q.b, t) {
      EndOrder(b, s);
      EndedLock(q, t);
    } else {
      SuffixKeepsOrder(Waiting(q.b, s), 0);
      assert Waiting(q.b, s)[0..] == Waiting(q.b, s);
    }
    hide Settle, Tidy, KeepsOrder, FromLive, ListAfterAdvance, LocksRun;
  }

  /** Only a run without a lock leaves the scope held. */
  lemma EndedLock(q: Quiet, t: TaskId)
    requires QuietInv(q) && t in q.running
    ensures var s := ScopeOf(q.b, t);
      s in Ended(q.b, t).lock <==> s in q.b.lock && !NeedsLock(q.b, t)
  {
    var s := ScopeOf(q.b, t);
    if NeedsLock(q.b, t) { assert Holds(q, t); }
    if s in q.b.lock { assert HeldWell(q, s); }
  }

  lemma CreateOrder(q: Quiet, t: TaskId, task: Task, s: Scope)
    requires QuietInv(q) && t !in q.b.tasks
    ensures KeepsOrder(Waiting(q.b, s), Waiting(Handle(q, CreateTask(t, task)).b, s))
  {
    CreateSettles(q.b.(tasks := q.b.tasks[t := task]), t);
    assert !TaskRuns.InQueue(q.b, t, s);
    AppendKeepsOrder(Waiting(q.b, s), t);
    SuffixKeepsOrder(Waiting(q.b, s), 0);
    assert Waiting(q.b, s)[0..] == Waiting(q.b, s);
    hide Settle, KeepsOrder, Tidy;
  }

  lemma StopOrder(q: Quiet, t: TaskId, seenQueued: bool, s: Scope)
    requires t in q.b.tasks
    ensures KeepsOrder(Waiting(q.b, s), Waiting(Handle(q, StopTask(t, seenQueued)).b, s))
  {
    var now := Waiting(Handle(q, StopTask(t, seenQueued)).b, s);
    if seenQueued { StopQueuedTurn(q.b, t); } else { StopRunningTurn(q.b, t); }
    hide Settle, Without;
    forall x, y | Before(now, x, y) ensures Before(Waiting(q.b, s), x, y) {
      if now != Waiting(q.b, s) { WithoutBefore(Waiting(q.b, s), t, x, y); }
    }
  }

  /** The waiting tasks of a scope keep their order through every handler but one:
      the end of an ephemeral run, while another task holds the shared scope, sends
      the first live task to the end of the list. */
  lemma OrderLostIff(q: Quiet, h: Handler, s: Scope)
    requires QuietInv(q)
    ensures KeepsOrder(Waiting(q.b, s), Waiting(Handle(q, h).b, s)) <==> !Rotates(q, h, s)
  {
    hide Handle, KeepsOrder, Rotates;
    OnlyFinishRotates(q, h, s);
    match h
    case CreateTask(t, task) => if t !in q.b.tasks { CreateOrder(q, t, task, s); } else { SameOrder(q, h, s); }
    case StopTask(t, seenQueued) => if t in q.b.tasks { StopOrder(q, t, seenQueued, s); } else { SameOrder(q, h, s); }
    case FinishRun(t) => if t in q.running { FinishOrder(q, t, s); } else { SameOrder(q, h, s); }
    case ChatStart(t, scope) => SameOrder(q, h, s);
    case ChatEnd(t) => SameOrder(q, h, s);
  }

  lemma OnlyFinishRotates(q: Quiet, h: Handler, s: Scope)
    ensures Rotates(q, h, s) ==> h.FinishRun? && h.t in q.running
  {
    hide FromLive;
  }

  /** Chats and handlers of unknown tasks leave the lists alone. */
  lemma SameOrder(q: Quiet, h: Handler, s: Scope)
    requires h.CreateTask? || h.StopTask? ==> (h.t in q.b.tasks <==> h.CreateTask?)
    requires h.FinishRun? ==> h.t !in q.running
    ensures KeepsOrder(Waiting(q.b, s), Waiting(Handle(q, h).b, s))
  {
    if h.ChatEnd? { OneStep(q.b, ChatRelease(h.t)); }
    hide Settle;
    assert Waiting(Handle(q, h).b, s) == Waiting(q.b, s);
    SuffixKeepsOrder(Waiting(q.b, s), 0);
    assert Waiting(q.b, s)[0..] == Waiting(q.b, s);
  }

  // ----------------------------------------------------------- a run that loses it

  const SHARED := Task(LegacyShared, true)

  /** Task 1 runs, 2 and 3 wait, the ephemeral task 4 runs as well, */
  const THREE_TASKS: seq<Handler> := [CreateTask(1, SHARED)] + [CreateTask(2, SHARED)] + [CreateTask(3, SHARED)]
  const FOUR_TASKS: seq<Handler> := THREE_TASKS + [CreateTask(4, Task(LegacyShared, false))]

  lemma OneHandler(hs: seq<Handler>, h: Handler)
    ensures AfterHandlers(hs + [h]) == Handle(AfterHandlers(hs), h)
  {
    hide Handle;
    assert (hs + [h])[..|hs|] == hs;
  }

  lemma Queues(q: Quiet, t: TaskId, list: seq<TaskId>)
    requires t !in q.b.tasks && t !in q.b.cancelled && LegacyShared in q.b.lock && Waiting(q.b, LegacyShared) == list
    ensures var after := Handle(q, CreateTask(t, SHARED));
      && Waiting(after.b, LegacyShared) == list + [t] && after.running == q.running && after.chats == q.chats
      && after.b.tasks == q.b.tasks[t := SHARED] && after.b.lock == q.b.lock && after.b.started == q.b.started
      && after.b.pending == q.b.pending[t := LegacyShared] && after.b.cancelled == q.b.cancelled
  {
    CreateSettles(q.b.(tasks := q.b.tasks[t := SHARED]), t);
    hide Settle;
  }

  lemma AfterFirst()
    ensures var q := AfterHandlers([CreateTask(1, SHARED)]);
      && Waiting(q.b, LegacyShared) == [] && q.running == {1} && q.b.lock == map[LegacyShared := 1]
      && q.b.cancelled == {}
      && q.b.tasks.Keys == {1}
  {
    NoHandlers();
    OneHandler([], CreateTask(1, SHARED));
    assert [] + [CreateTask(1, SHARED)] == [CreateTask(1, SHARED)];
    CreateSettles(EMPTY_BOARD.(tasks := map[1 := SHARED]), 1);
    hide Settle, AfterHandlers;
  }

  lemma AfterThree()
    ensures var q := AfterHandlers(THREE_TASKS);
      && Waiting(q.b, LegacyShared) == [2, 3] && q.running == {1} && q.b.lock == map[LegacyShared := 1]
      && q.b.cancelled == {}
      && 2 in q.b.pending && q.b.tasks.Keys == {1, 2, 3}
  {
    hide AfterHandlers, Handle, Waiting;
    AfterFirst();
    var first := [CreateTask(1, SHARED)];
    var q1 := AfterHandlers(first);
    OneHandler(first, CreateTask(2, SHARED));
    Queues(q1, 2, []);
    var q2 := AfterHandlers(first + [CreateTask(2, SHARED)]);
    assert [] + [2] == [2];
    OneHandler(first + [CreateTask(2, SHARED)], CreateTask(3, SHARED));
    Queues(q2, 3, [2]);
  }

  lemma AfterFour()
    ensures var q := AfterHandlers(FOUR_TASKS);
      && Waiting(q.b, LegacyShared) == [2, 3] && q.running == {1, 4} && q.b.lock == map[LegacyShared := 1]
      && q.b.cancelled == {}
      && 2 in q.b.pending && 4 in q.b.tasks && q.b.tasks[4] == Task(LegacyShared, false)
  {
    hide AfterHandlers, Handle;
    AfterThree();
    OneHandler(THREE_TASKS, CreateTask(4, Task(LegacyShared, false)));
    EphemeralStarts(AfterHandlers(THREE_TASKS), 4);
  }

  lemma NoHandlers()
    ensures AfterHandlers([]) == Quiet(EMPTY_BOARD, {}, {})
  {
  }

  lemma EphemeralStarts(q: Quiet, t: TaskId)
    requires t !in q.b.tasks && t !in q.b.cancelled
    ensures var b := q.b.(tasks := q.b.tasks[t := Task(LegacyShared, false)], started := q.b.started + [t]);
      Handle(q, CreateTask(t, Task(LegacyShared, false))) == Quiet(b, q.running + {t}, q.chats)
  {
    CreateSettles(q.b.(tasks := q.b.tasks[t := Task(LegacyShared, false)]), t);
    hide Settle;
  }

  /** and the end of task 4 puts task 2 behind task 3. */
  lemma EphemeralEndRotates()
    ensures Waiting(AfterHandlers(FOUR_TASKS).b, LegacyShared) == [2, 3]
    ensures Waiting(AfterHandlers(FOUR_TASKS + [FinishRun(4)]).b, LegacyShared) == [3, 2]
  {
    AfterFour();
    hide AfterHandlers, Handle;
    var q := AfterHandlers(FOUR_TASKS);
    forall k | 0 <= k < |FOUR_TASKS| ensures !LeavesWaiting(AfterHandlers(FOUR_TASKS[..k]), FOUR_TASKS[k]) {}
    NoTaskStranded(FOUR_TASKS);
    OneHandler(FOUR_TASKS, FinishRun(4));
    FinishOrder(q, 4, LegacyShared);
    assert Live(Ended(q.b, 4), [2, 3][0]);
    assert FromLive(Ended(q.b, 4), [2, 3]) == [2, 3];
  }
}
