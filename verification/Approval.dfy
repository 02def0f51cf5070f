/** agents/main.py: the handshake between a tool call that waits for approval and
    the endpoints that decide it, on one event loop. */
module Approval {

  type CallId = string
  type Owner = string
  type WaitId = nat

  datatype Wait = Wait(call: CallId, owner: Owner)

  datatype Outcome = Approved | Denied | TimedOut | Gone

  /** A decision that an endpoint accepted, with the wait whose event it set. */
  datatype Accept = Accept(w: WaitId, owner: Owner, approved: bool)

  /** The three module dictionaries, and around them the waits: those begun, those
      that have not returned, those whose event is set, what was accepted, and
      what each wait returned. */
  datatype Store = Store(
    events: map<CallId, WaitId>,
    decisions: map<CallId, bool>,
    owners: map<CallId, Owner>,
    began: map<WaitId, Wait>,
    live: set<WaitId>,
    awake: set<WaitId>,
    accepted: seq<Accept>,
    returned: map<WaitId, Outcome>)

  const START := Store(map[], map[], map[], map[], {}, {}, [], map[])

  /** What happens between two awaits of the event loop. A timeout or a
      cancellation may reach a wait whose event is already set. */
  datatype Action =
    | Begin(w: WaitId, wait: Wait)
    | Decide(call: CallId, uid: Owner, approved: bool)
    | Wake(w: WaitId)
    | Timeout(w: WaitId)
    | Disconnect(w: WaitId)

  /** The `finally` block, and the wait's result. */
  function Leave(s: Store, w: WaitId, decisions: map<CallId, bool>, outcome: Outcome): Store
    requires w in s.began
  {
    var call := s.began[w].call;
    s.(events := s.events - {call}, owners := s.owners - {call}, decisions := decisions,
       live := s.live - {w}, returned := s.returned[w := outcome])
  }

  function Next(s: Store, a: Action): Store {
    match a
    case Begin(w, wait) =>
      if w in s.began then s
      else s.(events := s.events[wait.call := w], owners := s.owners[wait.call := wait.owner],
              began := s.began[w := wait], live := s.live + {w})
    case Decide(call, uid, approved) =>
      if call !in s.owners || s.owners[call] != uid then s
      else
        var decided := s.(decisions := s.decisions[call := approved], owners := s.owners - {call});
        if call !in s.events then decided
        else decided.(events := s.events - {call}, awake := s.awake + {s.events[call]},
                      accepted := s.accepted + [Accept(s.events[call], uid, approved)])
    case Wake(w) =>
      if w !in s.live || w !in s.awake || w !in s.began then s
      else
        var call := s.began[w].call;
        Leave(s, w, s.decisions - {call}, if call in s.decisions && s.decisions[call] then Approved else Denied)
    case Timeout(w) =>
      if w !in s.live || w !in s.began then s else Leave(s, w, s.decisions - {s.began[w].call}, TimedOut)
    case Disconnect(w) =>
      if w !in s.live || w !in s.began then s else Leave(s, w, s.decisions, Gone)
  }

  function After(actions: seq<Action>): Store {
    if actions == [] then START else Next(After(actions[..|actions| - 1]), actions[|actions| - 1])
  }

  // --------------------------------------------------------------- every run

  ghost predicate AcceptedFor(s: Store, w: WaitId, approved: bool) {
    w in s.began && exists i :: 0 <= i < |s.accepted| && s.accepted[i] == Accept(w, s.began[w].owner, approved)
  }

  ghost predicate Inv(s: Store) {
    && s.events.Keys == s.owners.Keys
    && s.live <= s.began.Keys && s.awake <= s.began.Keys
    && (forall w: WaitId :: w in s.began ==> (w in s.live <==> w !in s.returned))
    && (forall w: WaitId :: w in s.returned ==> w in s.began)
    && (forall c :: c in s.events ==>
          s.events[c] in s.live && s.events[c] !in s.awake && s.began[s.events[c]] == Wait(c, s.owners[c]))
    && (forall i :: 0 <= i < |s.accepted| ==>
          s.accepted[i].w in s.awake && s.accepted[i].w in s.began
            && s.accepted[i].owner == s.began[s.accepted[i].w].owner)
    && (forall i, j :: 0 <= i < j < |s.accepted| ==> s.accepted[i].w != s.accepted[j].w)
    && (forall w: WaitId :: w in s.awake ==> AcceptedFor(s, w, true) || AcceptedFor(s, w, false))
  }

  lemma AcceptedStays(s: Store, a: Action, w: WaitId, approved: bool)
    requires AcceptedFor(s, w, approved)
    ensures AcceptedFor(Next(s, a), w, approved)
  {
    var i :| 0 <= i < |s.accepted| && s.accepted[i] == Accept(w, s.began[w].owner, approved);
    assert Next(s, a).accepted[i] == s.accepted[i];
  }

  lemma NextKeepsInv(s: Store, a: Action)
    requires Inv(s)
    ensures Inv(Next(s, a))
  {
    var n := Next(s, a);
    forall w: WaitId | w in n.awake ensures AcceptedFor(n, w, true) || AcceptedFor(n, w, false) {
      if w in s.awake {
        var approved :| AcceptedFor(s, w, approved);
        AcceptedStays(s, a, w, approved);
      } else {
        assert n.accepted[|s.accepted|].w == w;
      }
    }
  }

  lemma {:induction false} AlwaysInv(actions: seq<Action>)
    ensures Inv(After(actions))
  {
    if actions != [] {
      AlwaysInv(actions[..|actions| - 1]);
      NextKeepsInv(After(actions[..|actions| - 1]), actions[|actions| - 1]);
    }
  }

  /** Between steps the event and owner maps name the same calls, and each entry
      belongs to one undecided wait and its owner. */
  lemma OneWaitACall(actions: seq<Action>, c: CallId)
    ensures var s := After(actions);
      && (c in s.events <==> c in s.owners)
      && (c in s.events ==>
            s.events[c] in s.live && s.events[c] !in s.awake && s.events[c] in s.began
            && s.began[s.events[c]] == Wait(c, s.owners[c]))
  {
    AlwaysInv(actions);
  }

  /** A wait accepts at most one decision, and only its owner's, reused ids or not. */
  lemma OneDecisionAWait(actions: seq<Action>, i: nat, j: nat)
    requires i < |After(actions).accepted| && j < |After(actions).accepted|
    ensures var s := After(actions);
      && (s.accepted[i].w == s.accepted[j].w ==> i == j)
      && s.accepted[i].w in s.began && s.accepted[i].owner == s.began[s.accepted[i].w].owner
  {
    AlwaysInv(actions);
  }

  // ------------------------------------------------------ approved means approved

  /** No wait begins on an id that was denied to a wait that has yet to read it. */
  ghost predicate Guarded(actions: seq<Action>) {
    forall k :: 0 <= k < |actions| ==> GuardedStep(After(actions[..k]), actions[k])
  }

  ghost predicate GuardedStep(s: Store, a: Action) {
    a.Begin? && a.w !in s.began ==>
      forall w: WaitId :: w in s.live && AcceptedFor(s, w, false) ==> s.began[w].call != a.wait.call
  }

  /** Nobody takes a denial back. */
  ghost predicate DenialsKept(s: Store) {
    && (forall w: WaitId :: w in s.live && AcceptedFor(s, w, false) ==>
          s.began[w].call !in s.events && (s.began[w].call in s.decisions ==> !s.decisions[s.began[w].call]))
    && (forall w: WaitId :: w in s.returned && s.returned[w] == Approved ==> AcceptedFor(s, w, true))
  }

  /** Every accepted decision was accepted before, or by this step for its wait. */
  lemma OldOrNew(s: Store, a: Action, w: WaitId, approved: bool)
    requires Inv(s) && AcceptedFor(Next(s, a), w, approved)
    ensures AcceptedFor(s, w, approved) ||
      (a.Decide? && a.approved == approved && a.call in s.events && s.events[a.call] == w && s.owners[a.call] == a.uid)
  {
    var n := Next(s, a);
    var i :| 0 <= i < |n.accepted| && n.accepted[i] == Accept(w, n.began[w].owner, approved);
    if i < |s.accepted| { assert s.accepted[i] == n.accepted[i]; }
  }

  lemma NewDenial(s: Store, a: Action, w: WaitId)
    requires Inv(s) && AcceptedFor(Next(s, a), w, false) && !AcceptedFor(s, w, false)
    ensures var n, call := Next(s, a), Next(s, a).began[w].call;
      call !in n.events && call in n.decisions && !n.decisions[call]
  {
    OldOrNew(s, a, w, false);
  }

  lemma OldDenial(s: Store, a: Action, w: WaitId)
    requires Inv(s) && DenialsKept(s) && GuardedStep(s, a) && w in s.live && AcceptedFor(s, w, false)
    ensures var n, call := Next(s, a), s.began[w].call;
      call !in n.events && (call in n.decisions ==> !n.decisions[call]) && w in n.began && n.began[w] == s.began[w]
  {
    assert s.began[w].call !in s.owners;
  }

  lemma ReturnsKept(s: Store, a: Action, w: WaitId)
    requires Inv(s) && DenialsKept(s) && w in Next(s, a).returned && Next(s, a).returned[w] == Approved
    ensures AcceptedFor(Next(s, a), w, true)
  {
    if w in s.returned && s.returned[w] == Approved {
      AcceptedStays(s, a, w, true);
    } else {
      assert w in s.awake && w in s.live;
      assert AcceptedFor(s, w, true);
      AcceptedStays(s, a, w, true);
    }
  }

  lemma NextKeepsDenials(s: Store, a: Action)
    requires Inv(s) && DenialsKept(s) && GuardedStep(s, a)
    ensures DenialsKept(Next(s, a))
  {
    var n := Next(s, a);
    LiveBefore(s, a);
    hide Next, Inv, AcceptedFor;
    forall w: WaitId | w in n.live && AcceptedFor(n, w, false)
      ensures w in n.began && n.began[w].call !in n.events
        && (n.began[w].call in n.decisions ==> !n.decisions[n.began[w].call])
    {
      if AcceptedFor(s, w, false) { OldDenial(s, a, w); } else { NewDenial(s, a, w); InBegan(n, w); }
    }
    forall w: WaitId | w in n.returned && n.returned[w] == Approved ensures AcceptedFor(n, w, true) {
      ReturnsKept(s, a, w);
    }
  }

  lemma LiveBefore(s: Store, a: Action)
    requires Inv(s)
    ensures forall w: WaitId :: w in Next(s, a).live && AcceptedFor(s, w, false) ==> w in s.live
  {
  }

  lemma InBegan(s: Store, w: WaitId)
    requires AcceptedFor(s, w, false)
    ensures w in s.began
  {
  }

  lemma {:induction false} AlwaysKeepsDenials(actions: seq<Action>)
    requires Guarded(actions)
    ensures DenialsKept(After(actions))
  {
    if actions != [] {
      var before := actions[..|actions| - 1];
      forall k | 0 <= k < |before| ensures GuardedStep(After(before[..k]), before[k]) {
        assert before[..k] == actions[..k] && before[k] == actions[k];
      }
      AlwaysInv(before);
      AlwaysKeepsDenials(before);
      assert actions[..|actions| - 1] == before;
      hide Next, Inv, DenialsKept, GuardedStep;
      assert GuardedStep(After(actions[..|actions| - 1]), actions[|actions| - 1]);
      NextKeepsDenials(After(before), actions[|actions| - 1]);
    }
  }

  /** Under any interleaving with timeouts, denials and disconnects, `wait` returns
      "approved" only if its own owner's approval was accepted for it. */
  lemma ApprovedByOwner(actions: seq<Action>, w: WaitId)
    requires Guarded(actions) && w in After(actions).returned && After(actions).returned[w] == Approved
    ensures AcceptedFor(After(actions), w, true)
  {
    AlwaysKeepsDenials(actions);
  }

  /** Every accepted decision was sent by the owner of the wait, for its call, while it
      waited, and says what was sent. */
  lemma {:induction false} AcceptedWasSent(actions: seq<Action>, i: nat) returns (k: nat)
    requires i < |After(actions).accepted|
    ensures var s, a := After(actions), After(actions).accepted[i];
      && a.w in s.began && a.owner == s.began[a.w].owner
      && k < |actions| && actions[k] == Decide(s.began[a.w].call, a.owner, a.approved)
      && s.began[a.w].call in After(actions[..k]).events && After(actions[..k]).events[s.began[a.w].call] == a.w
  {
    var last := |actions| - 1;
    var before := actions[..last];
    AlwaysInv(before);
    AlwaysInv(actions);
    LastStep(After(before), actions[last], i);
    if i < |After(before).accepted| {
      k := AcceptedWasSent(before, i);
      assert before[..k] == actions[..k];
    } else {
      k := last;
    }
    hide Next, Inv;
  }

  lemma LastStep(s: Store, a: Action, i: nat)
    requires Inv(s) && i < |Next(s, a).accepted|
    ensures var n := Next(s, a);
      if i < |s.accepted| then
        n.accepted[i] == s.accepted[i] && s.accepted[i].w in s.began && n.accepted[i].w in n.began
        && n.began[n.accepted[i].w] == s.began[n.accepted[i].w]
      else
        var w := n.accepted[i].w;
        && w in n.began && a == Decide(n.began[w].call, n.accepted[i].owner, n.accepted[i].approved)
        && n.began[w].call in s.events && s.events[n.began[w].call] == w
  {
  }

  /** So a wait that returns "approved" was approved by its own owner, who sent that
      while it waited. */
  lemma ApprovalWasSent(actions: seq<Action>, w: WaitId) returns (k: nat)
    requires Guarded(actions) && w in After(actions).returned && After(actions).returned[w] == Approved
    ensures w in After(actions).began
    ensures var wait := After(actions).began[w];
      && k < |actions| && actions[k] == Decide(wait.call, wait.owner, true)
      && wait.call in After(actions[..k]).events && After(actions[..k]).events[wait.call] == w
  {
    ApprovedByOwner(actions, w);
    var s := After(actions);
    var i :| 0 <= i < |s.accepted| && s.accepted[i] == Accept(w, s.began[w].owner, true);
    k := AcceptedWasSent(actions, i);
    hide After, Guarded;
  }

  // ------------------------------------------------------------ nothing gets lost

  /** No wait begins on an id that a decided wait has yet to read. */
  ghost predicate NoneUnread(actions: seq<Action>) {
    forall k :: 0 <= k < |actions| ==> NoneUnreadStep(After(actions[..k]), actions[k])
  }

  ghost predicate NoneUnreadStep(s: Store, a: Action) {
    a.Begin? ==> forall w: WaitId :: w in s.live && w in s.awake && w in s.began ==> s.began[w].call != a.wait.call
  }

  /** No wait begins on an id of a wait that has not returned. */
  ghost predicate Distinct(actions: seq<Action>) {
    forall k :: 0 <= k < |actions| ==> DistinctStep(After(actions[..k]), actions[k])
  }

  ghost predicate DistinctStep(s: Store, a: Action) {
    a.Begin? ==> forall w: WaitId :: w in s.live && w in s.began ==> s.began[w].call != a.wait.call
  }

  /** A decided wait reads its own owner's decision, or none. */
  ghost predicate ReadsOwn(s: Store) {
    && (forall w: WaitId :: w in s.live && w in s.awake && w in s.began ==>
          s.began[w].call !in s.events
          && (s.began[w].call in s.decisions ==> AcceptedFor(s, w, s.decisions[s.began[w].call])))
    && (forall w: WaitId :: w in s.returned && s.returned[w] == Approved ==> AcceptedFor(s, w, true))
  }

  lemma NewlyDecided(s: Store, a: Action, w: WaitId)
    requires Inv(s) && w !in s.awake && w in Next(s, a).awake
    ensures var n := Next(s, a);
      w in n.began && n.began[w].call !in n.events && n.began[w].call in n.decisions
        && AcceptedFor(n, w, n.decisions[n.began[w].call])
  {
    var n := Next(s, a);
    assert n.accepted[|s.accepted|] == Accept(w, n.began[w].owner, n.decisions[n.began[w].call]);
  }

  /** No step but a decision of its own wait touches a decided wait's entry,
      except to drop it. */
  lemma StillDecided(s: Store, a: Action, w: WaitId)
    requires Inv(s) && NoneUnreadStep(s, a)
    requires w in s.live && w in s.awake && w in s.began && s.began[w].call !in s.events
    ensures var n, call := Next(s, a), s.began[w].call;
      call !in n.events && (call in n.decisions ==> call in s.decisions && n.decisions[call] == s.decisions[call])
  {
    assert s.began[w].call !in s.owners;
    hide AcceptedFor;
  }

  lemma DecidedReadsOwn(s: Store, a: Action, w: WaitId)
    requires Inv(s) && ReadsOwn(s) && NoneUnreadStep(s, a)
    requires var n := Next(s, a); w in n.live && w in n.awake && w in n.began
    ensures var n := Next(s, a); var call := n.began[w].call;
      call !in n.events && (call in n.decisions ==> AcceptedFor(n, w, n.decisions[call]))
  {
    if w !in s.awake {
      NewlyDecided(s, a, w);
    } else {
      BeganStays(s, a, w);
      StillDecided(s, a, w);
      hide Next, Inv, NoneUnreadStep;
      var call := s.began[w].call;
      if call in s.decisions { AcceptedStays(s, a, w, s.decisions[call]); }
    }
  }

  lemma BeganStays(s: Store, a: Action, w: WaitId)
    requires Inv(s) && w in s.awake && w in Next(s, a).live
    ensures w in s.live && w in s.began && w in Next(s, a).began && Next(s, a).began[w] == s.began[w]
  {
    hide AcceptedFor;
  }

  lemma ReturnedReadsOwn(s: Store, a: Action, w: WaitId)
    requires ReadsOwn(s)
    requires w in Next(s, a).returned && Next(s, a).returned[w] == Approved
    ensures AcceptedFor(Next(s, a), w, true)
  {
    hide NoneUnreadStep;
    AcceptedStays(s, a, w, true);
  }

  lemma NextReadsOwn(s: Store, a: Action)
    requires Inv(s) && ReadsOwn(s) && NoneUnreadStep(s, a)
    ensures ReadsOwn(Next(s, a))
  {
    var n := Next(s, a);
    hide Next, Inv, AcceptedFor;
    forall w: WaitId | w in n.live && w in n.awake && w in n.began
      ensures n.began[w].call !in n.events
      ensures n.began[w].call in n.decisions ==> AcceptedFor(n, w, n.decisions[n.began[w].call])
    {
      DecidedReadsOwn(s, a, w);
    }
    forall w: WaitId | w in n.returned && n.returned[w] == Approved ensures AcceptedFor(n, w, true) {
      ReturnedReadsOwn(s, a, w);
    }
  }

  lemma {:induction false} AlwaysReadsOwn(actions: seq<Action>)
    requires NoneUnread(actions)
    ensures ReadsOwn(After(actions))
  {
    if actions != [] {
      var before := actions[..|actions| - 1];
      forall k | 0 <= k < |before| ensures NoneUnreadStep(After(before[..k]), before[k]) {
        assert before[..k] == actions[..k] && before[k] == actions[k];
      }
      AlwaysInv(before);
      AlwaysReadsOwn(before);
      assert actions[..|actions| - 1] == before;
      NextReadsOwn(After(before), actions[|actions| - 1]);
    }
  }

  /** A decision survives until its wait reads it. */
  ghost predicate ReadsExactly(s: Store) {
    && (forall v, w: WaitId :: v in s.live && w in s.live && v in s.began && w in s.began && v != w ==>
          s.began[v].call != s.began[w].call)
    && (forall w: WaitId :: w in s.live && w in s.awake && w in s.began ==> s.began[w].call in s.decisions)
    && (forall w: WaitId :: w in s.returned && s.returned[w] == Denied ==> AcceptedFor(s, w, false))
  }

  lemma ReturnedReadsExactly(s: Store, a: Action, w: WaitId)
    requires ReadsOwn(s) && ReadsExactly(s)
    requires w in Next(s, a).returned && Next(s, a).returned[w] == Denied
    ensures AcceptedFor(Next(s, a), w, false)
  {
    AcceptedStays(s, a, w, false);
  }

  lemma DecisionKept(s: Store, a: Action, w: WaitId)
    requires Inv(s) && ReadsExactly(s)
    requires w in Next(s, a).live && w in Next(s, a).awake && w in Next(s, a).began
    ensures Next(s, a).began[w].call in Next(s, a).decisions
  {
    hide AcceptedFor;
    if w !in s.awake {
      NewlyDecided(s, a, w);
    }
  }

  lemma NextReadsExactly(s: Store, a: Action)
    requires Inv(s) && ReadsOwn(s) && ReadsExactly(s) && DistinctStep(s, a)
    ensures ReadsExactly(Next(s, a))
  {
    var n := Next(s, a);
    forall w: WaitId | w in n.returned && n.returned[w] == Denied ensures AcceptedFor(n, w, false) {
      ReturnedReadsExactly(s, a, w);
    }
    forall w: WaitId | w in n.live && w in n.awake && w in n.began ensures n.began[w].call in n.decisions {
      DecisionKept(s, a, w);
    }
    hide AcceptedFor;
  }

  lemma {:induction false} DistinctReadsExactly(actions: seq<Action>)
    requires Distinct(actions)
    ensures NoneUnread(actions) && ReadsExactly(After(actions))
  {
    assert NoneUnread(actions) by {
      forall k | 0 <= k < |actions| ensures NoneUnreadStep(After(actions[..k]), actions[k]) {
        assert DistinctStep(After(actions[..k]), actions[k]);
      }
    }
    if actions != [] {
      var before := actions[..|actions| - 1];
      forall k | 0 <= k < |before| ensures DistinctStep(After(before[..k]), before[k]) {
        assert before[..k] == actions[..k] && before[k] == actions[k];
      }
      AlwaysInv(before);
      DistinctReadsExactly(before);
      AlwaysReadsOwn(before);
      assert actions[..|actions| - 1] == before;
      NextReadsExactly(After(before), actions[|actions| - 1]);
    }
  }

  /** When live waits have distinct ids, a wait that is neither timed out nor cut
      off returns exactly the one decision its owner made on it. */
  lemma ReturnsTheDecision(actions: seq<Action>, w: WaitId)
    requires Distinct(actions) && w in After(actions).returned
    requires After(actions).returned[w] == Approved || After(actions).returned[w] == Denied
    ensures After(actions).returned[w] == Approved <==> AcceptedFor(After(actions), w, true)
    ensures After(actions).returned[w] == Denied <==> AcceptedFor(After(actions), w, false)
  {
    DistinctReadsExactly(actions);
    AlwaysReadsOwn(actions);
    AlwaysInv(actions);
  }

  lemma AfterOne(actions: seq<Action>, a: Action)
    ensures After(actions + [a]) == Next(After(actions), a)
  {
    assert (actions + [a])[..|actions|] == actions;
  }

  lemma AfterThree(actions: seq<Action>, a: Action, b: Action, c: Action)
    ensures After(actions + [a, b, c]) == Next(Next(Next(After(actions), a), b), c)
  {
    hide After, Next;
    AfterOne(actions, a);
    AfterOne(actions + [a], b);
    AfterOne(actions + [a] + [b], c);
    assert actions + [a] + [b] + [c] == actions + [a, b, c];
  }

  lemma StolenDecision(s: Store, w: WaitId, x: WaitId, other: Owner)
    requires w in s.began && w in s.live && w in s.awake && x !in s.began
    ensures var call := s.began[w].call;
      var n := Next(Next(Next(s, Begin(x, Wait(call, other))), Decide(call, other, true)), Wake(w));
      w in n.returned && n.returned[w] == Approved
  {
    var call := s.began[w].call;
    var a := Next(s, Begin(x, Wait(call, other)));
    assert call in a.owners && a.owners[call] == other && call in a.events;
    var b := Next(a, Decide(call, other, true));
    assert call in b.decisions && b.decisions[call] && w in b.live && w in b.awake && b.began[w] == s.began[w];
    assert Next(b, Wake(w)) == Leave(b, w, b.decisions - {call}, Approved);
    assert Next(b, Wake(w)).returned[w] == Approved;
    assert b == Next(Next(s, Begin(x, Wait(call, other))), Decide(call, other, true));
  }

  lemma OneVerdict(s: Store, w: WaitId)
    requires Inv(s) && AcceptedFor(s, w, false)
    ensures !AcceptedFor(s, w, true)
  {
  }

  /** The guard is needed: from any reachable state in which a denied wait has not
      yet read its decision, a second wait on its id by another owner can have
      the denied call approved. */
  lemma ReuseMisleads(actions: seq<Action>, w: WaitId, x: WaitId, other: Owner)
    requires var s := After(actions);
      w in s.live && AcceptedFor(s, w, false) && x !in s.began
    ensures var s := After(actions);
      var stolen := [Begin(x, Wait(s.began[w].call, other)), Decide(s.began[w].call, other, true), Wake(w)];
      var after := After(actions + stolen);
      w in after.returned && after.returned[w] == Approved && !AcceptedFor(after, w, true)
  {
    AlwaysInv(actions);
    var s := After(actions);
    var call := s.began[w].call;
    var a, b, c := Begin(x, Wait(call, other)), Decide(call, other, true), Wake(w);
    AfterThree(actions, a, b, c);
    StolenDecision(s, w, x, other);
    AcceptedStays(s, a, w, false);
    AcceptedStays(Next(s, a), b, w, false);
    AcceptedStays(Next(Next(s, a), b), c, w, false);
    AlwaysInv(actions + [a, b, c]);
    hide Next, After, Inv;
    OneVerdict(After(actions + [a, b, c]), w);
  }

  // ----------------------------------------------------------- the dictionaries

  /** `_approval_events`, `_approval_decisions` and `_approval_owners`. */
  class Endpoint {
    var events: map<CallId, WaitId>
    var decisions: map<CallId, bool>
    var owners: map<CallId, Owner>
    var awake: set<WaitId>
    ghost var began: map<WaitId, Wait>
    ghost var live: set<WaitId>
    ghost var accepted: seq<Accept>
    ghost var returned: map<WaitId, Outcome>

    constructor ()
      ensures State() == START
    {
      events, decisions, owners, awake := map[], map[], map[], {};
      began, live, accepted, returned := map[], {}, [], map[];
    }

    ghost function State(): Store
      reads this
    {
      Store(events, decisions, owners, began, live, awake, accepted, returned)
    }

    /** `approve_tool_call` and `deny_tool_call`: 200, 403 or 404. */
    method DecideCall(call: CallId, uid: Owner, approved: bool) returns (code: nat)
      modifies this
      ensures State() == Next(old(State()), Decide(call, uid, approved))
      ensures code == if call !in old(owners) then 404 else if old(owners)[call] != uid then 403 else 200
      ensures code != 200 ==> State() == old(State())
      ensures code == 200 ==>
        && decisions == old(decisions)[call := approved] && owners == old(owners) - {call}
        && events == old(events) - {call}
        && awake == (if call in old(events) then old(awake) + {old(events)[call]} else old(awake))
    {
      if call !in owners { return 404; }
      if owners[call] != uid { return 403; }
      decisions := decisions[call := approved];
      owners := owners - {call};
      if call in events {
        awake := awake + {events[call]};
        accepted := accepted + [Accept(events[call], uid, approved)];
      }
      events := events - {call};
      code := 200;
    }

    /** `wait`, up to its await. */
    method BeginWait(w: WaitId, wait: Wait)
      requires w !in began
      modifies this
      ensures State() == Next(old(State()), Begin(w, wait))
      ensures events == old(events)[wait.call := w] && owners == old(owners)[wait.call := wait.owner]
      ensures decisions == old(decisions) && awake == old(awake)
    {
      events := events[wait.call := w];
      owners := owners[wait.call := wait.owner];
      began, live := began[w := wait], live + {w};
    }

    /** `wait`, from its await on, when the event was set. */
    method EndWait(w: WaitId, wait: Wait) returns (outcome: Outcome)
      requires w in live && w in awake && w in began && began[w] == wait
      modifies this
      ensures State() == Next(old(State()), Wake(w)) && w in returned && outcome == returned[w]
      ensures outcome == if wait.call in old(decisions) && old(decisions)[wait.call] then Approved else Denied
      ensures decisions == old(decisions) - {wait.call}
      ensures events == old(events) - {wait.call} && owners == old(owners) - {wait.call}
    {
      events := events - {wait.call};
      owners := owners - {wait.call};
      outcome := if wait.call in decisions && decisions[wait.call] then Approved else Denied;
      decisions := decisions - {wait.call};
      live, returned := live - {w}, returned[w := outcome];
    }

    /** `wait`, from its await on, after 120 seconds. */
    method TimeOutWait(w: WaitId, wait: Wait)
      requires w in live && w in began && began[w] == wait
      modifies this
      ensures State() == Next(old(State()), Timeout(w)) && returned == old(returned)[w := TimedOut]
      ensures decisions == old(decisions) - {wait.call}
      ensures events == old(events) - {wait.call} && owners == old(owners) - {wait.call}
    {
      decisions := decisions - {wait.call};
      events := events - {wait.call};
      owners := owners - {wait.call};
      live, returned := live - {w}, returned[w := TimedOut];
    }

    /** `wait`, when its request is cancelled: only the `finally` block runs. */
    method CutOffWait(w: WaitId, wait: Wait)
      requires w in live && w in began && began[w] == wait
      modifies this
      ensures State() == Next(old(State()), Disconnect(w)) && returned == old(returned)[w := Gone]
      ensures decisions == old(decisions)
      ensures events == old(events) - {wait.call} && owners == old(owners) - {wait.call}
    {
      events := events - {wait.call};
      owners := owners - {wait.call};
      live, returned := live - {w}, returned[w := Gone];
    }
  }
}
